/**
 * The older aesara implementation of the Wiener first-passage-time density
 * (`wfpt.py`): a memoising decision function that picks the series per row,
 * its own small-time term count, a fast series written as `exp(c + log S)`, a
 * non-negativity clamp in place of a density floor, and `log_pdf_sv`, which
 * has no degenerate-time guard and checks only `sv >= 0` and `a >= 0`.
 *
 * The large-time term count and the slow series are the same expressions as
 * in the analytical module and are reused from there.
 */
module Wfpt {
  import opened Wrappers
  import opened Numerics
  import Analytical

  // ---------------------------------------------------------------------
  // The decision: small-time or large-time series
  //
  // Both counts are written with `switch`, so the branch not taken never
  // reaches the result and neither count is NaN where rt > 0.

  /** `2 sqrt(2 pi rt) err`, this variant's argument of the small-time log. */
  function SmallArg(m: Math, rt: real, err: real): real
  {
    2.0 * m.sqrt(2.0 * Pi * rt) * err
  }

  /** `ks` of this variant: `switch(_a < 1, max(2 + sqrt(-2 rt log(_a)), sqrt(rt) + 1), 2)`. */
  function KSmall(m: Math, rt: real, err: real): real
  {
    var b := SmallArg(m, rt, err);
    var ks := Max2(2.0 + m.sqrt(-2.0 * rt * m.log(b)), m.sqrt(rt) + 1.0);
    if b < 1.0 then ks else 2.0
  }

  /** With a positive response time and error bound this `ks` is at least 2 on both branches. */
  lemma KSmallAtLeastTwo(m: Math, rt: real, err: real)
    requires Lawful(m) && rt > 0.0 && err > 0.0
    ensures KSmall(m, rt, err) >= 2.0
  {
    var b := SmallArg(m, rt, err);
    if b < 1.0 {
      assert 2.0 * Pi * rt > 0.0;
      assert m.sqrt(2.0 * Pi * rt) > 0.0;
      assert b > 0.0;
      LogBelowOneIsNegative(m, b);
      var l := m.log(b);
      assert l < 0.0;
      assert rt * l < 0.0;
      assert m.sqrt(-2.0 * rt * l) >= 0.0;
      assert Max2(2.0 + m.sqrt(-2.0 * rt * l), m.sqrt(rt) + 1.0) >= 2.0 + m.sqrt(-2.0 * rt * l);
    }
  }

  /** `kl` of this variant: `switch(pi rt err < 1, max(__c, __b), __b)`. */
  function KLarge(m: Math, rt: real, err: real): (r: real)
    requires Lawful(m) && rt > 0.0
    ensures r >= Analytical.LargeB(m, rt)
    ensures Pi * rt * err >= 1.0 ==> r == Analytical.LargeB(m, rt)
  {
    var b := Analytical.LargeB(m, rt);
    if Pi * rt * err < 1.0 then Max2(Analytical.LargeC(m, rt, err), b) else b
  }

  /**
   * Up to `pi rt err = 1` this `kl` is the analytical one; past it the
   * analytical blend is NaN while this switch still gives `__b`.
   */
  lemma LargeCountsAgree(m: Math, rt: real, err: real)
    requires Lawful(m) && rt > 0.0
    ensures Pi * rt * err <= 1.0 ==> Analytical.KLarge(m, rt, err) == Some(KLarge(m, rt, err))
    ensures Pi * rt * err > 1.0 ==> Analytical.KLarge(m, rt, err).None?
  {
    var b := Analytical.LargeB(m, rt);
    var c := Analytical.LargeC(m, rt, err);
    assert Max2(c, b) == Max2(b, c);
  }

  /**
   * One row of the decision `ks < kl`. A time at or below zero reaches no
   * guard: for rt < 0 every square root of rt is NaN, so `kl` is NaN; for
   * rt == 0, `-2 * 0 * log(0)` is NaN, so `ks` is NaN; either way the
   * comparison is false and the slow series is used.
   */
  function ComputeK(m: Math, rt: real, err: real): (r: bool)
    requires Lawful(m)
    ensures r ==> rt > 0.0
    ensures rt > 0.0 ==> (r <==> KSmall(m, rt, err) < KLarge(m, rt, err))
  {
    rt > 0.0 && KSmall(m, rt, err) < KLarge(m, rt, err)
  }

  /** The uncached computation of `inner_func`: one decision per response time. */
  function Decision(m: Math, rts: seq<real>, err: real): seq<bool>
    requires Lawful(m)
  {
    seq(|rts|, i requires 0 <= i < |rts| => ComputeK(m, rts[i], err))
  }

  /**
   * The memo of `decision_func`: the last key `(rt, err)` and the result
   * computed for it. A stored result always equals the uncached decision on
   * the stored key. The key is matched exactly (same length, same elements).
   */
  class DecisionCache {
    const m: Math
    var internalRt: Option<seq<real>>
    var internalErr: Option<real>
    var internalResult: Option<seq<bool>>

    ghost predicate Valid()
      reads this
    {
      && Lawful(m)
      && (internalResult.Some? ==>
            && internalRt.Some? && internalErr.Some?
            && internalResult.value == Decision(m, internalRt.value, internalErr.value))
    }

    /** The stored key is `(rt, err)` and a result is stored. */
    predicate IsHit(rt: seq<real>, err: real)
      reads this
    {
      internalRt == Some(rt) && internalErr == Some(err) && internalResult.Some?
    }

    constructor (m: Math)
      requires Lawful(m)
      ensures Valid() && this.m == m
      ensures internalRt == None && internalErr == None && internalResult == None
    {
      this.m := m;
      internalRt := None;
      internalErr := None;
      internalResult := None;
    }

    /**
     * `inner_func`: a hit returns the stored result and changes nothing; a miss
     * stores the key and the freshly computed result. Either way the result is
     * the uncached decision, and an immediate repeat is a hit.
     */
    method Decide(rt: seq<real>, err: real) returns (r: seq<bool>)
      requires Valid()
      modifies this
      ensures Valid()
      ensures r == Decision(m, rt, err)
      ensures IsHit(rt, err)
      ensures old(IsHit(rt, err)) ==>
                internalRt == old(internalRt) && internalErr == old(internalErr)
                && internalResult == old(internalResult)
      ensures !old(IsHit(rt, err)) ==>
                internalRt == Some(rt) && internalErr == Some(err) && internalResult == Some(r)
    {
      if internalRt.Some? && internalRt.value == rt && internalErr == Some(err) && internalResult.Some? {
        r := internalResult.value;
        return;
      }
      internalRt := Some(rt);
      internalErr := Some(err);
      r := Decision(m, rt, err);
      internalResult := Some(r);
    }
  }

  // ---------------------------------------------------------------------
  // The key match as written: numpy's broadcasting comparison

  /**
   * `np.all(rt == internal_rt)` on one-dimensional arrays: equal lengths compare
   * elementwise; a length-1 side is broadcast against the other (so an empty
   * array matches any length-1 array); other lengths do not compare equal.
   */
  predicate NumpyAllEqual(rt: seq<real>, stored: seq<real>)
  {
    if |rt| == |stored| then rt == stored
    else if |stored| == 1 then forall i :: 0 <= i < |rt| ==> rt[i] == stored[0]
    else if |rt| == 1 then forall i :: 0 <= i < |stored| ==> stored[i] == rt[0]
    else false
  }

  /** The state of the closure of `decision_func`. */
  datatype CacheState = CacheState(rt: Option<seq<real>>, err: Option<real>, result: Option<seq<bool>>)

  /** `inner_func` as written, with the broadcasting key match, as a function of the closure state. */
  function InnerFuncAsWritten(m: Math, s: CacheState, rt: seq<real>, err: real): (seq<bool>, CacheState)
    requires Lawful(m)
  {
    if s.rt.Some? && NumpyAllEqual(rt, s.rt.value) && s.err == Some(err) && s.result.Some? then
      (s.result.value, s)
    else
      var r := Decision(m, rt, err);
      (r, CacheState(Some(rt), Some(err), Some(r)))
  }

  /**
   * With the broadcasting match a key of a different length can be taken for a
   * hit, and the stored result of the wrong length comes back: `[1, 1]` after
   * `[1]` gets one answer for two rows, `[1]` after `[1, 1]` gets two answers for
   * one row, and `[]` after `[1]` gets one answer for no rows.
   */
  lemma BroadcastHitIsStale(m: Math)
    requires Lawful(m)
    ensures var first := InnerFuncAsWritten(m, CacheState(None, None, None), [1.0], 1.0);
            var second := InnerFuncAsWritten(m, first.1, [1.0, 1.0], 1.0);
            |second.0| == 1 && |Decision(m, [1.0, 1.0], 1.0)| == 2
    ensures var first := InnerFuncAsWritten(m, CacheState(None, None, None), [1.0, 1.0], 1.0);
            var second := InnerFuncAsWritten(m, first.1, [1.0], 1.0);
            |second.0| == 2 && |Decision(m, [1.0], 1.0)| == 1
    ensures var first := InnerFuncAsWritten(m, CacheState(None, None, None), [1.0], 1.0);
            var second := InnerFuncAsWritten(m, first.1, [], 1.0);
            |second.0| == 1 && |Decision(m, [], 1.0)| == 0
  {
    var first := InnerFuncAsWritten(m, CacheState(None, None, None), [1.0], 1.0);
    assert first.1.rt == Some([1.0]);
    assert NumpyAllEqual([1.0, 1.0], [1.0]);
    assert NumpyAllEqual([], [1.0]);
    var firstPair := InnerFuncAsWritten(m, CacheState(None, None, None), [1.0, 1.0], 1.0);
    assert firstPair.1.rt == Some([1.0, 1.0]);
    assert NumpyAllEqual([1.0], [1.0, 1.0]);
  }

  // ---------------------------------------------------------------------
  // The series and the density of this variant

  /** `-y ** 2 / 2 / tt`: the exponent of one fast-series term, in this variant's order of operations. */
  function FastExponent(tt: real, y: real): real
    requires tt != 0.0
  {
    -(y * y) / 2.0 / tt
  }

  function FastRs(tt: real, ys: seq<real>): seq<real>
    requires tt != 0.0
  {
    seq(|ys|, i requires 0 <= i < |ys| => FastExponent(tt, ys[i]))
  }

  /**
   * `ftt01w_fast` of this variant: the shifted sum S is put back on scale as
   * `exp(c + log S)`. Where S is not positive, log is left uninterpreted
   * (floating point gives NaN or -inf there).
   */
  function FastRow(m: Math, tt: real, w: real, kTerms: int): real
    requires Lawful(m) && tt > 0.0 && kTerms >= 1
  {
    var ys := Analytical.FastYs(w, Analytical.FastIndices(kTerms));
    var rs := FastRs(tt, ys);
    var c := MaxOf(rs);
    m.exp(c + m.log(ShiftedSum(m, ys, rs, c))) / Analytical.FastNormaliser(m, tt)
  }

  /** The two orders of operations give the same exponents. */
  lemma FastRsAgree(tt: real, ys: seq<real>)
    requires tt != 0.0
    ensures FastRs(tt, ys) == Analytical.FastRs(tt, ys)
  {
    forall i | 0 <= i < |ys|
      ensures FastRs(tt, ys)[i] == Analytical.FastRs(tt, ys)[i]
    {
      var y := ys[i];
      assert -(y * y) / 2.0 / tt == -(y * y) / (2.0 * tt);
    }
  }

  /** `exp(c + log s) / q` and `exp(c) * s / q` agree when the latter is positive. */
  lemma ShiftedLogAgrees(m: Math, c: real, s: real, q: real, fl: real, fa: real)
    requires Lawful(m) && q > 0.0
    requires fl == m.exp(c + m.log(s)) / q && fa == m.exp(c) * s / q && fa > 0.0
    ensures fl == fa
  {
    var e := m.exp(c);
    assert e > 0.0;
    assert e * s > 0.0 by {
      assert fa * q == e * s;
    }
    ScaledPositive(e, s, e * s);
    ExpOfShiftedLog(m, c, s);
  }

  lemma ScaledPositive(e: real, s: real, q: real)
    requires e > 0.0 && q == e * s && q > 0.0
    ensures s > 0.0
  {
  }

  /** This variant's fast series in terms of its shifted sum, exponent and normaliser as plain values. */
  lemma FastRowParts(m: Math, tt: real, w: real, kTerms: int, ys: seq<real>, rs: seq<real>, c: real, s: real)
    requires Lawful(m) && tt > 0.0 && kTerms >= 1
    requires ys == Analytical.FastYs(w, Analytical.FastIndices(kTerms)) && rs == Analytical.FastRs(tt, ys)
    requires c == MaxOf(rs) && s == ShiftedSum(m, ys, rs, c)
    ensures FastRow(m, tt, w, kTerms) == m.exp(c + m.log(s)) / Analytical.FastNormaliser(m, tt)
  {
    FastRsAgree(tt, ys);
  }

  /** The analytical fast series in the same terms. */
  lemma AnalyticalFastRowParts(m: Math, tt: real, w: real, kTerms: int, ys: seq<real>, rs: seq<real>, c: real, s: real)
    requires Lawful(m) && tt > 0.0 && kTerms >= 1
    requires ys == Analytical.FastYs(w, Analytical.FastIndices(kTerms)) && rs == Analytical.FastRs(tt, ys)
    requires c == MaxOf(rs) && s == ShiftedSum(m, ys, rs, c)
    ensures Analytical.FastRow(m, tt, w, kTerms) == m.exp(c) * s / Analytical.FastNormaliser(m, tt)
  {
    LogSumExpParts(m, ys, rs, c, s);
  }

  /**
   * Where the analytical fast series is positive (so the log is defined), the
   * `exp(c + log S)` form equals the analytical `exp(c) * S` form.
   */
  lemma FastRowAgrees(m: Math, tt: real, w: real, kTerms: int)
    requires Lawful(m) && tt > 0.0 && kTerms >= 1
    requires Analytical.FastRow(m, tt, w, kTerms) > 0.0
    ensures FastRow(m, tt, w, kTerms) == Analytical.FastRow(m, tt, w, kTerms)
  {
    var ys := Analytical.FastYs(w, Analytical.FastIndices(kTerms));
    var rs := Analytical.FastRs(tt, ys);
    var c := MaxOf(rs);
    var s := ShiftedSum(m, ys, rs, c);
    var q := Analytical.FastNormaliser(m, tt);
    FastRowParts(m, tt, w, kTerms, ys, rs, c, s);
    AnalyticalFastRowParts(m, tt, w, kTerms, ys, rs, c, s);
    ShiftedLogAgrees(m, c, s, q, FastRow(m, tt, w, kTerms), Analytical.FastRow(m, tt, w, kTerms));
  }

  /** `p * (p > 0)`: a non-positive density becomes 0, a positive one is kept. */
  function Clamp(p: real): (r: real)
    ensures r >= 0.0
    ensures p > 0.0 ==> r == p
    ensures p <= 0.0 ==> r == 0.0
  {
    p * Indicator(p > 0.0)
  }

  /**
   * `ftt01w` of this variant on one row, given the decision for that row. The
   * fast series is only chosen for a positive time; the slow one takes any.
   */
  function Ftt01wRow(m: Math, lambda: bool, rt: real, a: real, w: real, kTerms: int): (r: real)
    requires Lawful(m) && (lambda ==> rt > 0.0) && a != 0.0 && kTerms >= 1
    ensures r >= 0.0
  {
    var tt := Analytical.NormalTime(rt, a);
    Clamp(if lambda then FastRow(m, tt, w, kTerms) else Analytical.SlowRow(m, tt, w, kTerms))
  }

  /**
   * When the two variants choose the same series and the analytical density
   * is positive, the two densities are equal: the clamp and the `exp(c + log S)`
   * form make no difference there.
   */
  lemma Ftt01wAgreesWithAnalytical(m: Math, rt: real, a: real, w: real, err: real, kTerms: int)
    requires Lawful(m) && rt > 0.0 && a != 0.0 && kTerms >= 1
    requires ComputeK(m, rt, err) == Analytical.ComputeK(m, rt, err)
    requires Analytical.Ftt01wRow(m, rt, a, w, err, kTerms) > 0.0
    ensures Ftt01wRow(m, ComputeK(m, rt, err), rt, a, w, kTerms) == Analytical.Ftt01wRow(m, rt, a, w, err, kTerms)
  {
    var tt := Analytical.NormalTime(rt, a);
    if ComputeK(m, rt, err) {
      FastRowAgrees(m, tt, w, kTerms);
    }
  }

  /** The values of `ftt01w` for a vector of response times and starting points. */
  function Ftt01wValue(m: Math, rts: seq<real>, a: real, ws: seq<real>, err: real, kTerms: int): (p: seq<real>)
    requires Lawful(m) && |ws| == |rts| && a != 0.0 && kTerms >= 1
  {
    seq(|rts|, i requires 0 <= i < |rts| => Ftt01wRow(m, ComputeK(m, rts[i], err), rts[i], a, ws[i], kTerms))
  }

  /**
   * `ftt01w`: asks the memoised decision, then evaluates the chosen series per
   * row. Afterwards the memo holds these times; a call that was a hit leaves
   * the stored decision as it was.
   */
  method Ftt01w(cache: DecisionCache, rts: seq<real>, a: real, ws: seq<real>, err: real, kTerms: int)
    returns (p: seq<real>)
    requires cache.Valid() && |ws| == |rts| && a != 0.0 && kTerms >= 1
    modifies cache
    ensures cache.Valid()
    ensures p == Ftt01wValue(cache.m, rts, a, ws, err, kTerms)
    ensures cache.IsHit(rts, err)
    ensures old(cache.IsHit(rts, err)) ==> cache.internalResult == old(cache.internalResult)
  {
    var lambda := cache.Decide(rts, err);
    assert forall i :: 0 <= i < |rts| ==> lambda[i] == ComputeK(cache.m, rts[i], err);
    p := seq(|rts|, i requires 0 <= i < |rts| => Ftt01wRow(cache.m, lambda[i], rts[i], a, ws[i], kTerms));
  }

  // ---------------------------------------------------------------------
  // log_pdf_sv

  /** The response time of a signed datum less the non-decision time; no guard is applied. */
  function DecisionTime(x: real, t: real): real
  {
    Abs(x) - t
  }

  /** `switch(data > 0, 1 - z, z)`. */
  function FlipStart(x: real, z: real): (r: real)
    ensures 0.0 <= z <= 1.0 ==> 0.0 <= r <= 1.0
    ensures x > 0.0 ==> r == 1.0 - z
    ensures x <= 0.0 ==> r == z
  {
    if x > 0.0 then 1.0 - z else z
  }

  /** `switch(data > 0, -v, v)`. */
  function FlipDrift(x: real, v: real): (r: real)
    ensures x > 0.0 ==> r == -v
    ensures x <= 0.0 ==> r == v
  {
    if x > 0.0 then -v else v
  }

  /**
   * The terms `log_pdf_sv` adds to `log(p)`:
   * `((a z sv)^2 - 2 a v z - v^2 rt) / (2 sv^2 rt + 2) - log(sv^2 rt + 1) / 2 - 2 log a`,
   * with the flipped drift and starting point and no doubling of `a`.
   */
  function SvTerms(m: Math, x: real, v: real, sv: real, a: real, z: real, t: real): real
    requires Analytical.SdvSpread(sv, DecisionTime(x, t)) != 0.0
  {
    var rt := DecisionTime(x, t);
    SvExponent(a, FlipDrift(x, v), FlipStart(x, z), rt, sv) - m.log(Analytical.SdvSpread(sv, rt)) / 2.0 - 2.0 * m.log(a)
  }

  /** The rational part `((a z sv)^2 - 2 a v z - v^2 rt) / (2 sv^2 rt + 2)` of those terms. */
  function SvExponent(a: real, v: real, z: real, rt: real, sv: real): real
    requires Analytical.SdvSpread(sv, rt) != 0.0
  {
    var azs := a * z * sv;
    assert 2.0 * (sv * sv) * rt + 2.0 == 2.0 * Analytical.SdvSpread(sv, rt);
    (azs * azs - 2.0 * a * v * z - (v * v) * rt) / (2.0 * (sv * sv) * rt + 2.0)
  }

  /** `log_pdf_sv`'s formula on one row, given the density `p` of that row. */
  function LogPdfSvRow(m: Math, p: real, x: real, v: real, sv: real, a: real, z: real, t: real): real
    requires Analytical.SdvSpread(sv, DecisionTime(x, t)) != 0.0
  {
    m.log(p) + SvTerms(m, x, v, sv, a, z, t)
  }

  /** The terms agree with the analytical ones for the same flipped row and boundary. */
  lemma SvTermsAgree(m: Math, x: real, v: real, sv: real, a: real, z: real, t: real)
    requires DecisionTime(x, t) > 0.0
    ensures SvTerms(m, x, v, sv, a, z, t)
            == Analytical.SdvTerms(m, Analytical.Prepared(FlipDrift(x, v), FlipStart(x, z), DecisionTime(x, t), false), a, sv)
  {
    var rt := DecisionTime(x, t);
    var p := Analytical.Prepared(FlipDrift(x, v), FlipStart(x, z), rt, false);
    var drift := SvExponent(a, p.v, p.z, rt, sv);
    assert drift == Analytical.SdvExponent(a, p.v, p.z, rt, sv);
    var l := m.log(Analytical.SdvSpread(sv, rt));
    assert SvTerms(m, x, v, sv, a, z, t) == drift - l / 2.0 - 2.0 * m.log(a);
    assert Analytical.SdvTerms(m, p, a, sv) == drift - 0.5 * l - 2.0 * m.log(a);
  }

  /**
   * This variant agrees with the analytical `logp_ddm_sdv` once its boundary
   * convention is accounted for: on a row whose decision time exceeds epsilon,
   * where both variants choose the same series and the density is above the
   * floor, `log_pdf_sv` with boundary `a` is `logp_ddm_sdv` with boundary `a / 2`
   * on the row (|x|, x).
   */
  lemma LogPdfSvMatchesAnalytical(m: Math, x: real, v: real, sv: real, a: real, z: real, t: real,
                                  err: real, kTerms: int, epsilon: real)
    requires Lawful(m) && a != 0.0 && kTerms >= 1 && epsilon > 0.0
    requires DecisionTime(x, t) > epsilon
    requires ComputeK(m, DecisionTime(x, t), err) == Analytical.ComputeK(m, DecisionTime(x, t), err)
    requires Analytical.Ftt01wRow(m, DecisionTime(x, t), a, FlipStart(x, z), err, kTerms) >= m.exp(Analytical.LogpLb)
    ensures var rt := DecisionTime(x, t);
            LogPdfSvRow(m, Ftt01wRow(m, ComputeK(m, rt, err), rt, a, FlipStart(x, z), kTerms), x, v, sv, a, z, t)
            == Analytical.LogpDdmSdvRow(m, Analytical.Row(x, x), v, a / 2.0, z, t, sv, err, kTerms, epsilon)
  {
    var rt := DecisionTime(x, t);
    var zf := FlipStart(x, z);
    var vf := FlipDrift(x, v);
    var pa := Analytical.Ftt01wRow(m, rt, a, zf, err, kTerms);
    Ftt01wAgreesWithAnalytical(m, rt, a, zf, err, kTerms);
    var prep := Analytical.Prepare(Analytical.Row(x, x), v, z, t, epsilon);
    assert prep == Analytical.Prepared(vf, zf, rt, false);
    var a2 := (a / 2.0) * 2.0;
    assert a2 == a;
    assert Analytical.LogDensity(m, rt, a, zf, err, kTerms) == m.log(pa);
    SvTermsAgree(m, x, v, sv, a, z, t);
    AnalyticalSdvRowParts(m, x, v, a, z, t, sv, err, kTerms, epsilon, prep);
  }

  /** The analytical row on a non-degenerate row, as log density plus variability terms at boundary `a`. */
  lemma AnalyticalSdvRowParts(m: Math, x: real, v: real, a: real, z: real, t: real, sv: real,
                              err: real, kTerms: int, epsilon: real, prep: Analytical.Prepared)
    requires Lawful(m) && a != 0.0 && kTerms >= 1 && epsilon > 0.0
    requires prep == Analytical.Prepare(Analytical.Row(x, x), v, z, t, epsilon) && !prep.degenerate
    ensures Analytical.LogpDdmSdvRow(m, Analytical.Row(x, x), v, a / 2.0, z, t, sv, err, kTerms, epsilon)
            == Analytical.LogDensity(m, prep.tt, a, prep.z, err, kTerms) + Analytical.SdvTerms(m, prep, a, sv)
  {
    var a2 := (a / 2.0) * 2.0;
    assert a2 == a;
  }

  /** The conditions `log_pdf_sv` attaches, in order: `sv >= 0` and `a >= 0`; none on `z`. */
  function SvChecks(sv: real, a: real): (cs: seq<Check>)
    ensures Messages(cs) == ["sv >= 0", "a >= 0"]
    ensures AllHold(cs) <==> sv >= 0.0 && a >= 0.0
  {
    var cs := [Check("sv >= 0", sv >= 0.0), Check("a >= 0", a >= 0.0)];
    assert AllHold(cs) ==> cs[0].holds && cs[1].holds;
    cs
  }

  /** The spread is non-zero on every row, so the sv terms do not divide by zero. */
  predicate SpreadsDefined(data: seq<real>, sv: real, t: real)
  {
    forall i :: 0 <= i < |data| ==> Analytical.SdvSpread(sv, DecisionTime(data[i], t)) != 0.0
  }

  /** The decision times `|data| - t` that `log_pdf_sv` hands to `ftt01w`. */
  function DecisionTimes(data: seq<real>, t: real): seq<real>
  {
    seq(|data|, i requires 0 <= i < |data| => DecisionTime(data[i], t))
  }

  /**
   * The value of `log_pdf_sv` on signed response times. A row at or before the
   * non-decision time is not guarded: its decision is false, so the slow
   * series is evaluated at that time, clamped, and its log taken.
   */
  function LogPdfSvValue(m: Math, data: seq<real>, v: real, sv: real, a: real, z: real, t: real,
                         err: real, kTerms: int): (r: Checked)
    requires Lawful(m) && SpreadsDefined(data, sv, t) && a != 0.0 && kTerms >= 1
    ensures |r.logp| == |data|
    ensures Messages(r.checks) == ["sv >= 0", "a >= 0"]
    ensures AllHold(r.checks) <==> sv >= 0.0 && a >= 0.0
    ensures forall i :: 0 <= i < |data| && DecisionTime(data[i], t) <= 0.0 ==>
              r.logp[i] == LogPdfSvRow(m, SlowAtOrBefore(m, data[i], a, z, t, kTerms), data[i], v, sv, a, z, t)
  {
    Checked(seq(|data|, i requires 0 <= i < |data| => LogPdfSvAt(m, data[i], v, sv, a, z, t, err, kTerms)),
            SvChecks(sv, a))
  }

  /** One row of `log_pdf_sv`: the density through this variant's decision, then the sv terms. */
  function LogPdfSvAt(m: Math, x: real, v: real, sv: real, a: real, z: real, t: real, err: real, kTerms: int): (r: real)
    requires Lawful(m) && Analytical.SdvSpread(sv, DecisionTime(x, t)) != 0.0 && a != 0.0 && kTerms >= 1
    ensures DecisionTime(x, t) <= 0.0 ==> r == LogPdfSvRow(m, SlowAtOrBefore(m, x, a, z, t, kTerms), x, v, sv, a, z, t)
  {
    var rt := DecisionTime(x, t);
    LogPdfSvRow(m, Ftt01wRow(m, ComputeK(m, rt, err), rt, a, FlipStart(x, z), kTerms), x, v, sv, a, z, t)
  }

  /** The clamped slow series at a row's decision time, which is what a row at or before `t` gets. */
  function SlowAtOrBefore(m: Math, x: real, a: real, z: real, t: real, kTerms: int): real
    requires a != 0.0
  {
    Clamp(Analytical.SlowRow(m, Analytical.NormalTime(DecisionTime(x, t), a), FlipStart(x, z), kTerms))
  }

  /**
   * The choice flip: an upper-bound datum scores as the lower-bound datum of the
   * same magnitude with the drift negated and the starting point mirrored.
   */
  lemma ChoiceMirror(m: Math, x: real, v: real, sv: real, a: real, z: real, t: real, err: real, kTerms: int)
    requires Lawful(m) && Analytical.SdvSpread(sv, DecisionTime(x, t)) != 0.0 && a != 0.0 && kTerms >= 1
    requires x > 0.0
    ensures DecisionTime(-x, t) == DecisionTime(x, t)
    ensures LogPdfSvAt(m, x, v, sv, a, z, t, err, kTerms) == LogPdfSvAt(m, -x, -v, sv, a, 1.0 - z, t, err, kTerms)
  {
    assert DecisionTime(-x, t) == DecisionTime(x, t);
    assert FlipDrift(-x, -v) == FlipDrift(x, v);
    assert FlipStart(-x, 1.0 - z) == FlipStart(x, z);
  }

  /** `log_pdf_sv`: flips, removes the non-decision time, and evaluates `ftt01w` through the memo. */
  method LogPdfSv(cache: DecisionCache, data: seq<real>, v: real, sv: real, a: real, z: real, t: real,
                  err: real, kTerms: int) returns (r: Checked)
    requires cache.Valid() && SpreadsDefined(data, sv, t) && a != 0.0 && kTerms >= 1
    modifies cache
    ensures cache.Valid()
    ensures r == LogPdfSvValue(cache.m, data, v, sv, a, z, t, err, kTerms)
    ensures cache.IsHit(DecisionTimes(data, t), err)
    ensures old(cache.IsHit(DecisionTimes(data, t), err)) ==> cache.internalResult == old(cache.internalResult)
  {
    var rts := DecisionTimes(data, t);
    var zs := seq(|data|, i requires 0 <= i < |data| => FlipStart(data[i], z));
    var p := Ftt01w(cache, rts, a, zs, err, kTerms);
    r := Checked(seq(|data|, i requires 0 <= i < |data| => LogPdfSvRow(cache.m, p[i], data[i], v, sv, a, z, t)),
                 SvChecks(sv, a));
  }
}
