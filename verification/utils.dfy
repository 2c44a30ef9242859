/**
 * The data-handling helpers: aliasing a parent parameter, normalising a
 * parameter given as a keyword argument, validating the size of a random
 * sample of draws, moving missing-response rows to the top of the data, and
 * splitting an index array into near-equal chunks.
 */
module Utils {
  import opened Wrappers
  import opened Numerics

  // ---------------------------------------------------------------------------
  // Parameters and aliases
  // ---------------------------------------------------------------------------

  /**
   * The parts of a parameter specification the helpers read or write. The
   * rest of the specification class is not part of this model.
   */
  class Param {
    var name: Option<string>
    var isParent: bool
    var isRegression: bool

    constructor(name: Option<string>, isParent: bool, isRegression: bool)
      ensures this.name == name && this.isParent == isParent && this.isRegression == isRegression
    {
      this.name := name;
      this.isParent := isParent;
      this.isRegression := isRegression;
    }

    /** `param["name"] = n`: sets the name and nothing else. */
    method SetName(n: string)
      modifies this
      ensures name == Some(n)
      ensures isParent == old(isParent) && isRegression == old(isRegression)
    {
      name := Some(n);
    }
  }

  /** The response term as Bambi names it, and its default alias. */
  const ResponseTerm: string := "c(rt, response)"
  const ResponseAlias: string := "rt,response"
  const InterceptTerm: string := "Intercept"

  /**
   * `make_alias_dict_from_parent`: the parent must be a parent and have a
   * name (otherwise an assertion fails). A non-regression parent aliases the
   * response to "rt,response" and the intercept to its own name; a regression
   * parent aliases the response to its own name and leaves the intercept alone.
   */
  method MakeAliasDictFromParent(parent: Param) returns (r: Result<map<string, string>>)
    ensures !parent.isParent ==> r == Failure("This Param object should be a parent!")
    ensures parent.isParent && parent.name.None? ==> r == Failure("")
    ensures r.Success? <==> parent.isParent && parent.name.Some?
    ensures r.Success? && !parent.isRegression ==>
              r.value.Keys == {ResponseTerm, InterceptTerm}
              && r.value[ResponseTerm] == ResponseAlias && r.value[InterceptTerm] == parent.name.value
    ensures r.Success? && parent.isRegression ==>
              r.value.Keys == {ResponseTerm} && r.value[ResponseTerm] == parent.name.value
  {
    if !parent.isParent {
      return Failure("This Param object should be a parent!");
    }
    if parent.name.None? {
      return Failure("");
    }
    var name := parent.name.value;
    var result := map[ResponseTerm := ResponseAlias];
    if !parent.isRegression {
      result := result + map[InterceptTerm := name];
      return Success(result);
    }
    result := result[ResponseTerm := name];
    return Success(result);
  }

  /** A value inside a parameter specification dictionary. */
  datatype Value =
    | Text(s: string)
    | Number(x: real)
    | BambiPrior(dist: string)
    | Dict(entries: map<string, Value>)
    | Other(repr: string)

  /** What a parameter can be given as in the keyword arguments. */
  datatype PriorArg =
    | NumberArg(x: real)
    | PriorObjectArg(dist: string)
    | DictArg(entries: map<string, Value>)
    | ParamArg(param: Param)
    | UnsupportedArg(kind: string)

  /** A normalised specification: a dictionary, or the parameter object itself. */
  datatype Processed = Spec(entries: map<string, Value>) | ParamSpec(param: Param)

  /** The error `_process_param_in_kwargs` raises for an unsupported value. */
  function UnsupportedMessage(name: string): string
  {
    "Parameter " + name + " must be a float, a dict, a bmb.Prior, or a hssm.Param object."
  }

  /**
   * The specification `_process_param_in_kwargs` returns. A dictionary always
   * carries the given name under "name"; a dictionary that already holds a
   * "prior" or "bounds" entry keeps every other entry (its own "name" is
   * replaced); any other dictionary, number or prior object becomes the
   * "prior" entry beside the name.
   */
  function ProcessedSpec(name: string, prior: PriorArg): (r: Result<Processed>)
    ensures r.Failure? <==> prior.UnsupportedArg?
    ensures r.Failure? ==> r.error == UnsupportedMessage(name)
    ensures prior.ParamArg? ==> r == Success(ParamSpec(prior.param))
    ensures r.Success? && r.value.Spec? ==> "name" in r.value.entries && r.value.entries["name"] == Text(name)
    ensures prior.NumberArg? ==> r == Success(Spec(map["name" := Text(name), "prior" := Number(prior.x)]))
    ensures prior.PriorObjectArg? ==> r == Success(Spec(map["name" := Text(name), "prior" := BambiPrior(prior.dist)]))
    ensures prior.DictArg? && ("prior" in prior.entries || "bounds" in prior.entries) ==>
              r.Success? && r.value.Spec?
              && r.value.entries.Keys == prior.entries.Keys + {"name"}
              && forall k :: k in prior.entries && k != "name" ==> r.value.entries[k] == prior.entries[k]
    ensures prior.DictArg? && !("prior" in prior.entries || "bounds" in prior.entries) ==>
              r == Success(Spec(map["name" := Text(name), "prior" := Dict(prior.entries)]))
  {
    match prior
    case NumberArg(x) => Success(Spec(map["name" := Text(name), "prior" := Number(x)]))
    case PriorObjectArg(dist) => Success(Spec(map["name" := Text(name), "prior" := BambiPrior(dist)]))
    case DictArg(entries) =>
      if "prior" in entries || "bounds" in entries then Success(Spec(entries + map["name" := Text(name)]))
      else Success(Spec(map["name" := Text(name), "prior" := Dict(entries)]))
    case ParamArg(param) => Success(ParamSpec(param))
    case UnsupportedArg(_) => Failure(UnsupportedMessage(name))
  }

  /**
   * `_process_param_in_kwargs`: returns the normalised specification; a
   * parameter object is returned itself, with its name set in place.
   */
  method ProcessParamInKwargs(name: string, prior: PriorArg) returns (r: Result<Processed>)
    modifies if prior.ParamArg? then {prior.param} else {}
    ensures r == ProcessedSpec(name, prior)
    ensures prior.ParamArg? ==>
              prior.param.name == Some(name)
              && prior.param.isParent == old(prior.param.isParent)
              && prior.param.isRegression == old(prior.param.isRegression)
  {
    if prior.ParamArg? {
      prior.param.SetName(name);
    }
    r := ProcessedSpec(name, prior);
  }

  // ---------------------------------------------------------------------------
  // Random sample of draws
  // ---------------------------------------------------------------------------

  /** How many draws to sample: not given, a count, or a fraction. */
  datatype SampleCount = NoCount | Count(n: int) | Fraction(f: real)

  /** The three messages the sample-size checks raise. */
  const DrawsError: string := "n_draws must be >= 1."
  const CountError: string := "When an int, n_samples must be >= 1."
  const FractionError: string := "When a float, n_samples must be between 0 and 1."

  /**
   * The validated sample size: `None` means "use every draw". The checks run
   * in the source's order, so a count or fraction above the number of draws
   * means every draw even when it would fail a later check.
   */
  function SampleSize(nSamples: SampleCount, nDraws: int): (r: Result<Option<nat>>)
    ensures nDraws <= 0 ==> r == Failure(DrawsError)
    ensures r.Success? && r.value.Some? ==> 1 <= r.value.value <= nDraws
    ensures nDraws > 0 && nSamples.NoCount? ==> r == Success(None)
    ensures nDraws > 0 && nSamples.Count? && nSamples.n > nDraws ==> r == Success(None)
    ensures nDraws > 0 && nSamples.Fraction? && nSamples.f > nDraws as real ==> r == Success(None)
    ensures nDraws > 0 && nSamples.Count? && 1 <= nSamples.n <= nDraws ==> r == Success(Some(nSamples.n))
    ensures nDraws > 0 && nSamples.Count? && nSamples.n < 1 ==> r == Failure(CountError)
    ensures nDraws > 0 && nSamples.Fraction? && nSamples.f <= nDraws as real && !(0.0 < nSamples.f <= 1.0) ==>
              r == Failure(FractionError)
    ensures nDraws > 0 && nSamples.Fraction? && 0.0 < nSamples.f <= 1.0 ==>
              r.Success? && r.value.Some?
              && r.value.value == Max2Int(Floor(nSamples.f * nDraws as real), 1)
  {
    if nDraws <= 0 then Failure(DrawsError)
    else match nSamples
      case NoCount => Success(None)
      case Count(n) =>
        if n > nDraws then Success(None)
        else if n < 1 then Failure(CountError)
        else Success(Some(n))
      case Fraction(f) =>
        if f > nDraws as real then Success(None)
        else if f <= 0.0 || f > 1.0 then Failure(FractionError)
        else Success(Some(FractionSize(f, nDraws)))
  }

  /** The larger of two integers. */
  function Max2Int(x: int, y: int): (r: int)
    ensures r >= x && r >= y && (r == x || r == y)
  {
    if x >= y then x else y
  }

  /** `max(int(f * n), 1)`: a fraction in (0, 1] of `n` draws is between 1 and `n` draws. */
  function FractionSize(f: real, n: int): (k: nat)
    requires 0.0 < f <= 1.0 && n >= 1
    ensures 1 <= k <= n
  {
    FractionOfDraws(f, n);
    Max2Int(Floor(f * n as real), 1)
  }

  /** A fraction in (0, 1] of `n` draws, floored, is at most `n`. */
  lemma FractionOfDraws(f: real, n: int)
    requires 0.0 < f <= 1.0 && n >= 1
    ensures 0 <= Floor(f * n as real) <= n
  {
    RealMulMono(f, 1.0, n as real);
  }

  /** Multiplying by a non-negative real keeps order. */
  lemma RealMulMono(a: real, b: real, c: real)
    requires a <= b && c >= 0.0
    ensures a * c <= b * c
  {
  }

  /** `k` distinct indices, each below `n`. */
  predicate IsSample(s: seq<nat>, n: nat, k: nat)
  {
    |s| == k
    && (forall i :: 0 <= i < |s| ==> s[i] < n)
    && (forall i, j :: 0 <= i < j < |s| ==> s[i] != s[j])
  }

  /** `np.random.choice(n, size=k, replace=False)` draws `k` distinct indices below `n`. */
  ghost predicate ChoiceContract(choice: (nat, nat) -> seq<nat>)
  {
    forall n: nat, k: nat :: k <= n ==> IsSample(choice(n, k), n, k)
  }

  /** The contract can be met: taking the first `k` indices meets it. */
  lemma ChoiceContractSatisfiable()
    ensures ChoiceContract((n: nat, k: nat) => seq(k, i => i))
  {
  }

  /**
   * `_generate_random_indices`, with the random choice a parameter that meets
   * its contract: on success with a size, exactly that many distinct indices,
   * each a valid draw.
   */
  function GenerateRandomIndices(nSamples: SampleCount, nDraws: int, choice: (nat, nat) -> seq<nat>)
    : (r: Result<Option<seq<nat>>>)
    requires ChoiceContract(choice)
    ensures r.Failure? <==> SampleSize(nSamples, nDraws).Failure?
    ensures r.Failure? ==> r.error == SampleSize(nSamples, nDraws).error
    ensures r.Success? ==> (r.value.None? <==> SampleSize(nSamples, nDraws).value.None?)
    ensures r.Success? && r.value.Some? ==> IsSample(r.value.value, nDraws, SampleSize(nSamples, nDraws).value.value)
  {
    match SampleSize(nSamples, nDraws)
    case Failure(e) => Failure(e)
    case Success(None) => Success(None)
    case Success(Some(k)) => Success(Some(choice(nDraws, k)))
  }

  /** A small fraction of the draws still samples one draw. */
  lemma SmallFractionSamplesOne(f: real, nDraws: int)
    requires nDraws >= 1 && 0.0 < f && f * nDraws as real < 1.0
    ensures SampleSize(Fraction(f), nDraws) == Success(Some(1))
  {
    if f > 1.0 {
      RealMulMono(1.0, f, nDraws as real);
    }
    assert Floor(f * nDraws as real) == 0;
  }

  // ---------------------------------------------------------------------------
  // Missing rows first
  // ---------------------------------------------------------------------------

  /** A data row: its first column and the rest. */
  datatype DataRow = DataRow(first: real, rest: seq<real>)

  /** The code for a missing value in the first column. */
  const MissingValue: real := -999.0

  predicate IsMissing(row: DataRow)
  {
    row.first == MissingValue
  }

  /** The rows whose first column is missing, in order. */
  function MissingRows(rows: seq<DataRow>): (r: seq<DataRow>)
    ensures forall i :: 0 <= i < |r| ==> IsMissing(r[i])
  {
    if |rows| == 0 then []
    else (if IsMissing(rows[0]) then [rows[0]] else []) + MissingRows(rows[1..])
  }

  /** The rows whose first column is present, in order. */
  function PresentRows(rows: seq<DataRow>): (r: seq<DataRow>)
    ensures forall i :: 0 <= i < |r| ==> !IsMissing(r[i])
  {
    if |rows| == 0 then []
    else (if IsMissing(rows[0]) then [] else [rows[0]]) + PresentRows(rows[1..])
  }

  /** `_rearrange_data`: the missing rows, then the others. */
  function RearrangeData(rows: seq<DataRow>): (r: seq<DataRow>)
    ensures forall i, j :: 0 <= i < j < |r| && IsMissing(r[j]) ==> IsMissing(r[i])
  {
    MissingRows(rows) + PresentRows(rows)
  }

  /** Rearranging reorders the rows and loses or duplicates none. */
  lemma RearrangeIsPermutation(rows: seq<DataRow>)
    ensures multiset(RearrangeData(rows)) == multiset(rows)
    ensures |RearrangeData(rows)| == |rows|
  {
    FiltersPartition(rows);
    assert |RearrangeData(rows)| == |multiset(RearrangeData(rows))| == |multiset(rows)| == |rows|;
  }

  /** The two filters split the rows between them. */
  lemma {:induction false} FiltersPartition(rows: seq<DataRow>)
    ensures multiset(MissingRows(rows)) + multiset(PresentRows(rows)) == multiset(rows)
  {
    if |rows| > 0 {
      var tail := rows[1..];
      FiltersPartition(tail);
      assert rows == [rows[0]] + tail;
      assert multiset(rows) == multiset([rows[0]]) + multiset(tail);
    }
  }

  /** Filtering distributes over concatenation. */
  lemma {:induction false} FiltersOfConcat(a: seq<DataRow>, b: seq<DataRow>)
    ensures MissingRows(a + b) == MissingRows(a) + MissingRows(b)
    ensures PresentRows(a + b) == PresentRows(a) + PresentRows(b)
  {
    if |a| > 0 {
      FiltersOfConcat(a[1..], b);
      assert (a + b)[0] == a[0];
      assert (a + b)[1..] == a[1..] + b;
      var missing := if IsMissing(a[0]) then [a[0]] else [];
      assert missing + (MissingRows(a[1..]) + MissingRows(b)) == (missing + MissingRows(a[1..])) + MissingRows(b);
      var present := if IsMissing(a[0]) then [] else [a[0]];
      assert present + (PresentRows(a[1..]) + PresentRows(b)) == (present + PresentRows(a[1..])) + PresentRows(b);
    } else {
      assert a + b == b;
    }
  }

  /** Filtering an already filtered list keeps it or empties it. */
  lemma {:induction false} FiltersOfFilters(rows: seq<DataRow>)
    ensures MissingRows(MissingRows(rows)) == MissingRows(rows)
    ensures PresentRows(MissingRows(rows)) == []
    ensures MissingRows(PresentRows(rows)) == []
    ensures PresentRows(PresentRows(rows)) == PresentRows(rows)
  {
    if |rows| > 0 {
      FiltersOfFilters(rows[1..]);
      var head := if IsMissing(rows[0]) then [rows[0]] else [];
      FiltersOfConcat(head, MissingRows(rows[1..]));
      var other := if IsMissing(rows[0]) then [] else [rows[0]];
      FiltersOfConcat(other, PresentRows(rows[1..]));
    }
  }

  /** Within each group, rows keep their relative order. */
  lemma RearrangeIsStable(rows: seq<DataRow>)
    ensures MissingRows(RearrangeData(rows)) == MissingRows(rows)
    ensures PresentRows(RearrangeData(rows)) == PresentRows(rows)
  {
    FiltersOfConcat(MissingRows(rows), PresentRows(rows));
    FiltersOfFilters(rows);
  }

  // ---------------------------------------------------------------------------
  // Splitting an array
  // ---------------------------------------------------------------------------

  /** Python's `//`: rounds the quotient toward negative infinity. */
  function PyFloorDiv(a: int, b: int): (q: int)
    requires b != 0
    ensures b > 0 ==> q * b <= a < q * b + b
    ensures b < 0 ==> q * b + b < a <= q * b
  {
    if b > 0 then a / b else (-a) / (-b)
  }

  /** Python's `%`: the remainder takes the sign of the divisor. */
  function PyMod(a: int, b: int): (r: int)
    requires b != 0
    ensures a == PyFloorDiv(a, b) * b + r
    ensures b > 0 ==> 0 <= r < b
    ensures b < 0 ==> b < r <= 0
  {
    a - PyFloorDiv(a, b) * b
  }

  /** The number of chunks `_split_array` asks for: `len // divisor`, plus one for a remainder. */
  function NumSplits(n: int, divisor: int): int
    requires divisor != 0
  {
    PyFloorDiv(n, divisor) + (if PyMod(n, divisor) != 0 then 1 else 0)
  }

  /** For a positive divisor the count is the ceiling of `n / divisor`. */
  lemma NumSplitsIsCeiling(n: nat, divisor: int)
    requires divisor > 0
    ensures NumSplits(n, divisor) == (n + divisor - 1) / divisor
    ensures (NumSplits(n, divisor) - 1) * divisor < n <= NumSplits(n, divisor) * divisor
  {
    var q := PyFloorDiv(n, divisor);
    var r := PyMod(n, divisor);
    assert n == q * divisor + r;
    var c := (n + divisor - 1) / divisor;
    assert n + divisor - 1 == c * divisor + (n + divisor - 1) % divisor;
    if r == 0 {
      assert n + divisor - 1 == q * divisor + (divisor - 1);
      DivUnique(n + divisor - 1, divisor, q, divisor - 1);
    } else {
      assert n + divisor - 1 == (q + 1) * divisor + (r - 1);
      DivUnique(n + divisor - 1, divisor, q + 1, r - 1);
    }
  }

  /** Quotient and remainder of a positive divisor are unique. */
  lemma DivUnique(a: int, b: int, q: int, r: int)
    requires b > 0 && 0 <= r < b && a == q * b + r
    ensures a / b == q && a % b == r
  {
    var q' := a / b;
    assert (q' - q) * b == r - a % b;
    SmallMultipleIsZero(q' - q, b);
  }

  /** Multiplying by a non-negative integer keeps order. */
  lemma MulMono(a: int, b: int, c: int)
    requires a <= b && c >= 0
    ensures a * c <= b * c
  {
  }

  /** The only multiple of `b` strictly between `-b` and `b` is 0. */
  lemma SmallMultipleIsZero(k: int, b: int)
    requires b > 0 && -b < k * b < b
    ensures k == 0
  {
    if k >= 1 {
      MulMono(1, k, b);
    } else if k <= -1 {
      MulMono(k, -1, b);
    }
  }

  /** A negative divisor never asks for a positive number of chunks of a list. */
  lemma NegativeDivisorHasNoChunks(n: nat, divisor: int)
    requires divisor < 0
    ensures NumSplits(n, divisor) <= 0
  {
    var b := -divisor;
    var a: int := -(n as int);
    var q := a / b;
    assert a == q * b + a % b;
    if n == 0 {
      DivUnique(0, b, 0, 0);
    } else if q >= 0 {
      MulMono(0, q, b);
    }
  }

  /** `np.array_split`'s section sizes: `n // sections`, plus one for the first `n % sections`. */
  function SectionSizes(n: nat, sections: nat): (sizes: seq<nat>)
    requires sections >= 1
    ensures |sizes| == sections
    ensures forall i :: 0 <= i < sections ==> sizes[i] == n / sections + (if i < n % sections then 1 else 0)
  {
    seq(sections, i requires 0 <= i < sections => n / sections + (if i < n % sections then 1 else 0))
  }

  function Sum(s: seq<nat>): nat
  {
    if |s| == 0 then 0 else s[0] + Sum(s[1..])
  }

  function Flatten(chunks: seq<seq<int>>): seq<int>
  {
    if |chunks| == 0 then [] else chunks[0] + Flatten(chunks[1..])
  }

  /** Cuts `data` into consecutive pieces of the given sizes. */
  function Chunks(data: seq<int>, sizes: seq<nat>): (r: seq<seq<int>>)
    requires Sum(sizes) == |data|
    ensures |r| == |sizes|
    ensures forall i :: 0 <= i < |r| ==> |r[i]| == sizes[i]
  {
    if |sizes| == 0 then []
    else [data[..sizes[0]]] + Chunks(data[sizes[0]..], sizes[1..])
  }

  /** The pieces put back together are the data. */
  lemma {:induction false} ChunksFlatten(data: seq<int>, sizes: seq<nat>)
    requires Sum(sizes) == |data|
    ensures Flatten(Chunks(data, sizes)) == data
  {
    if |sizes| > 0 {
      ChunksFlatten(data[sizes[0]..], sizes[1..]);
      assert data == data[..sizes[0]] + data[sizes[0]..];
    }
  }

  /** The sum of the sizes from position `i` on. */
  lemma {:induction false} SectionSizesSum(n: nat, sections: nat, i: nat)
    requires sections >= 1 && i <= sections
    ensures Sum(SectionSizes(n, sections)[i..])
            == (sections - i) * (n / sections) + (if i < n % sections then n % sections - i else 0)
    decreases sections - i
  {
    var sizes := SectionSizes(n, sections);
    if i < sections {
      SectionSizesSum(n, sections, i + 1);
      assert sizes[i..][1..] == sizes[i + 1..];
      SizesStep(sections - i, n / sections, i, n % sections, sizes[i], Sum(sizes[i + 1..]));
    } else {
      assert sizes[i..] == [];
    }
  }

  /** One step of the size sum: a head of `q` (plus one before `rem`) and the tail's closed form. */
  lemma SizesStep(k: int, q: int, i: int, rem: int, head: int, tail: int)
    requires head == q + (if i < rem then 1 else 0)
    requires tail == (k - 1) * q + (if i + 1 < rem then rem - (i + 1) else 0)
    ensures head + tail == k * q + (if i < rem then rem - i else 0)
  {
    assert (k - 1) * q == k * q - q;
  }

  /** The section sizes add up to the length. */
  lemma SectionSizesTotal(n: nat, sections: nat)
    requires sections >= 1
    ensures Sum(SectionSizes(n, sections)) == n
  {
    SectionSizesSum(n, sections, 0);
    assert SectionSizes(n, sections)[0..] == SectionSizes(n, sections);
  }

  /** `np.array_split(data, sections)`: `sections` consecutive pieces, the longer ones first. */
  function ArraySplit(data: seq<int>, sections: nat): (r: seq<seq<int>>)
    requires sections >= 1
    ensures |r| == sections
    ensures forall i :: 0 <= i < sections ==> |r[i]| == |data| / sections + (if i < |data| % sections then 1 else 0)
    ensures Flatten(r) == data
  {
    SectionSizesTotal(|data|, sections);
    ChunksFlatten(data, SectionSizes(|data|, sections));
    Chunks(data, SectionSizes(|data|, sections))
  }

  /**
   * `_split_array`: `divisor` 0 divides by zero, and any divisor that asks
   * for no chunks (a negative one, or an empty list) is refused by
   * `array_split`; otherwise the data is split into that many pieces.
   */
  function SplitArray(data: seq<int>, divisor: int): (r: Result<seq<seq<int>>>)
    ensures divisor == 0 ==> r == Failure("integer division or modulo by zero")
    ensures divisor != 0 && NumSplits(|data|, divisor) <= 0 ==> r == Failure("number sections must be larger than 0.")
    ensures r.Success? ==> |r.value| == NumSplits(|data|, divisor) && Flatten(r.value) == data
  {
    if divisor == 0 then Failure("integer division or modulo by zero")
    else
      var sections := NumSplits(|data|, divisor);
      if sections <= 0 then Failure("number sections must be larger than 0.")
      else Success(ArraySplit(data, sections))
  }

  /**
   * With a positive divisor and a non-empty list, the split succeeds into
   * `ceil(len / divisor)` chunks that concatenate to the list; every chunk is
   * non-empty and at most `divisor` long, and the sizes never grow and differ
   * by at most one.
   */
  lemma SplitArrayChunks(data: seq<int>, divisor: int)
    requires divisor > 0 && |data| > 0
    ensures var r := SplitArray(data, divisor);
            r.Success?
            && |r.value| == (|data| + divisor - 1) / divisor
            && Flatten(r.value) == data
            && (forall i :: 0 <= i < |r.value| ==> 1 <= |r.value[i]| <= divisor)
            && (forall i, j :: 0 <= i < j < |r.value| ==> |r.value[j]| <= |r.value[i]| <= |r.value[j]| + 1)
  {
    var n := |data|;
    NumSplitsIsCeiling(n, divisor);
    var s := NumSplits(n, divisor);
    assert s >= 1 by {
      assert n <= s * divisor;
    }
    var r := ArraySplit(data, s);
    assert SplitArray(data, divisor) == Success(r);
    ChunkBounds(n, s, divisor);
  }

  /** The two section sizes of `n` split `s` ways lie in [1, divisor] when `s` is the ceiling of `n / divisor`. */
  lemma ChunkBounds(n: nat, s: nat, divisor: int)
    requires divisor > 0 && n > 0 && s >= 1
    requires (s - 1) * divisor < n <= s * divisor
    ensures n / s >= 1
    ensures n / s + (if n % s != 0 then 1 else 0) <= divisor
  {
    var q := n / s;
    var r := n % s;
    assert n == q * s + r;
    MulMono(1, divisor, s - 1);
    assert s <= n;
    if q <= 0 {
      MulMono(q, 0, s);
    }
    assert q >= 1;
    if r == 0 {
      if q > divisor {
        MulMono(divisor + 1, q, s);
      }
    } else {
      if q >= divisor {
        MulMono(divisor, q, s);
      }
    }
  }
}
