/**
 * The analytical Wiener first-passage-time log-likelihood of the drift
 * diffusion model (Navarro & Fuss, 2009): the choice of the small-time or
 * large-time series per row, the two truncated series, their blend, and the
 * row-wise log-likelihood of `logp_ddm` and `logp_ddm_sdv` with the validity
 * conditions attached to the result.
 *
 * Every tensor operation of the source is elementwise over the rows of the
 * data, so the model states each one on one row and lifts it to a sequence of
 * rows only where the result is assembled.
 */
module Analytical {
  import opened Wrappers
  import opened Numerics

  /** `LOGP_LB`: the log-likelihood of a degenerate row and the log of the density floor. */
  const LogpLb: real := -66.1

  /** One row of the two-column data: a response time and a response (its sign is the choice). */
  datatype Row = Row(rt: real, response: real)

  // ---------------------------------------------------------------------
  // compute_k: which series needs fewer terms
  //
  // Both counts are indicator blends `e * d + (1 - e) * fallback`, which is
  // arithmetic, not a switch: past its guard the unused branch takes the square
  // root of a negative number, the NaN survives `maximum` and `0 * NaN`, and
  // the count is NaN. `None` stands for that NaN.

  /** `_a = 2 sqrt(pi rt err) err`, the argument of the small-time log. */
  function SmallArg(m: Math, rt: real, err: real): real
  {
    2.0 * m.sqrt(Pi * rt * err) * err
  }

  /** `_b = 2 + sqrt(-2 rt log(_a))`. */
  function SmallB(m: Math, rt: real, a: real): real
  {
    2.0 + m.sqrt(-2.0 * rt * m.log(a))
  }

  /** Past `_a = 1` the argument of the square root in `_b` is negative, so `_b` is NaN. */
  lemma SmallRootArgNegative(m: Math, rt: real, a: real)
    requires Lawful(m) && rt > 0.0 && a > 1.0
    ensures -2.0 * rt * m.log(a) < 0.0
  {
    LogAboveOneIsPositive(m, a);
    assert rt * m.log(a) > 0.0;
  }

  /**
   * `ks`, the number of small-time terms: `max(_b, _c)` where `_a < 1`, 2 where
   * `_a == 1`, and NaN past that.
   */
  function KSmall(m: Math, rt: real, err: real): (r: Option<real>)
    ensures r.None? <==> SmallArg(m, rt, err) > 1.0
    ensures SmallArg(m, rt, err) == 1.0 ==> r == Some(2.0)
    ensures SmallArg(m, rt, err) < 1.0 ==> r == Some(Max2(SmallB(m, rt, SmallArg(m, rt, err)), m.sqrt(rt) + 1.0))
  {
    var a := SmallArg(m, rt, err);
    if a > 1.0 then None
    else Some(Blend(a < 1.0, Max2(SmallB(m, rt, a), m.sqrt(rt) + 1.0), 2.0))
  }

  /** Wherever `ks` is a number and the error bound is positive, it is at least 2. */
  lemma KSmallAtLeastTwo(m: Math, rt: real, err: real)
    requires Lawful(m) && rt > 0.0 && err > 0.0
    ensures KSmall(m, rt, err).Some? ==> KSmall(m, rt, err).value >= 2.0
  {
    var a := SmallArg(m, rt, err);
    if a < 1.0 {
      assert Pi * rt * err > 0.0;
      assert a > 0.0;
      LogBelowOneIsNegative(m, a);
      assert -2.0 * rt * m.log(a) >= 0.0;
      assert SmallB(m, rt, a) >= 2.0;
    }
  }

  /** `__b = 1 / (pi sqrt(rt))`, the large-time count where the error bound is loose. */
  function LargeB(m: Math, rt: real): real
    requires Lawful(m) && rt > 0.0
  {
    1.0 / (Pi * m.sqrt(rt))
  }

  /** `__c = sqrt(-2 log(pi rt err) / (pi^2 rt))`. */
  function LargeC(m: Math, rt: real, err: real): real
    requires rt > 0.0
  {
    m.sqrt(-2.0 * m.log(Pi * rt * err) / (Pi * Pi * rt))
  }

  /** Past `pi rt err = 1` the argument of the square root in `__c` is negative, so `__c` is NaN. */
  lemma LargeRootArgNegative(m: Math, rt: real, err: real)
    requires Lawful(m) && rt > 0.0 && Pi * rt * err > 1.0
    ensures -2.0 * m.log(Pi * rt * err) / (Pi * Pi * rt) < 0.0
  {
    LogAboveOneIsPositive(m, Pi * rt * err);
    assert Pi * Pi * rt > 0.0;
  }

  /**
   * `kl`, the number of large-time terms: `max(__b, __c)` where `pi rt err < 1`,
   * `__b` where `pi rt err == 1`, and NaN past that.
   */
  function KLarge(m: Math, rt: real, err: real): (r: Option<real>)
    requires Lawful(m) && rt > 0.0
    ensures r.None? <==> Pi * rt * err > 1.0
    ensures r.Some? ==> r.value >= LargeB(m, rt)
    ensures Pi * rt * err < 1.0 ==> r.Some? && r.value >= LargeC(m, rt, err)
    ensures Pi * rt * err == 1.0 ==> r == Some(LargeB(m, rt))
  {
    var piRtErr := Pi * rt * err;
    if piRtErr > 1.0 then None
    else Some(Blend(piRtErr < 1.0, Max2(LargeB(m, rt), LargeC(m, rt, err)), LargeB(m, rt)))
  }

  /**
   * `compute_k` on one row, `ks < kl`: a comparison with a NaN count is false,
   * so the fast series is chosen only where both counts are numbers.
   */
  function ComputeK(m: Math, rt: real, err: real): (r: bool)
    requires Lawful(m) && rt > 0.0
    ensures r <==> KSmall(m, rt, err).Some? && KLarge(m, rt, err).Some?
                   && KSmall(m, rt, err).value < KLarge(m, rt, err).value
    ensures r ==> SmallArg(m, rt, err) <= 1.0 && Pi * rt * err <= 1.0
  {
    match (KSmall(m, rt, err), KLarge(m, rt, err))
    case (Some(ks), Some(kl)) => ks < kl
    case _ => false
  }

  // ---------------------------------------------------------------------
  // The two truncated series

  /**
   * The fast-series indices `arange(-floor((k - 1) / 2), ceil((k - 1) / 2) + 1)`,
   * with the floor and ceiling of the halved count written as integer division
   * (`FastIndicesAsWritten` shows the two agree): exactly k consecutive
   * integers, centred on zero.
   */
  function FastIndices(kTerms: int): (ks: seq<int>)
    ensures |ks| == if kTerms > 0 then kTerms else 0
    ensures forall i :: 0 <= i < |ks| ==> ks[i] == i - (kTerms - 1) / 2
    ensures kTerms > 0 ==> ks[0] == -((kTerms - 1) / 2) && ks[|ks| - 1] == kTerms / 2
  {
    Arange(-((kTerms - 1) / 2), kTerms / 2 + 1)
  }

  /** The bounds computed in floating point, floor and ceiling of (k - 1) / 2, are the integer ones. */
  lemma FastIndicesAsWritten(kTerms: int)
    ensures Arange(-Floor((kTerms - 1) as real / 2.0), Ceil((kTerms - 1) as real / 2.0) + 1)
            == FastIndices(kTerms)
  {
    FloorHalf(kTerms - 1);
    CeilHalf(kTerms - 1);
  }

  /** The slow-series indices `arange(1, k + 1)`: exactly 1, ..., k. */
  function SlowIndices(kTerms: int): (ks: seq<int>)
    ensures |ks| == if kTerms > 0 then kTerms else 0
    ensures forall i :: 0 <= i < |ks| ==> ks[i] == i + 1
  {
    Arange(1, kTerms + 1)
  }

  /** `-y ** 2 / (2 * tt)`: the exponent of one fast-series term. */
  function FastExponent(tt: real, y: real): real
    requires tt != 0.0
  {
    -(y * y) / (2.0 * tt)
  }

  /** `-k ** 2 * pi ** 2 * tt / 2`: the exponent of one slow-series term. */
  function SlowExponent(tt: real, k: int): real
  {
    -(k as real * k as real) * (Pi * Pi) * tt / 2.0
  }

  /** `y = w + 2 * k` over the fast indices. */
  function FastYs(w: real, ks: seq<int>): seq<real>
  {
    seq(|ks|, i requires 0 <= i < |ks| => w + 2.0 * ks[i] as real)
  }

  function FastRs(tt: real, ys: seq<real>): seq<real>
    requires tt != 0.0
  {
    seq(|ys|, i requires 0 <= i < |ys| => FastExponent(tt, ys[i]))
  }

  /** `y = k * sin(k * pi * w)`: the coefficient of one slow-series term. */
  function SlowY(m: Math, w: real, k: int): real
  {
    k as real * m.sin(k as real * Pi * w)
  }

  function SlowYs(m: Math, w: real, ks: seq<int>): seq<real>
  {
    seq(|ks|, i requires 0 <= i < |ks| => SlowY(m, w, ks[i]))
  }

  function SlowRs(tt: real, ks: seq<int>): seq<real>
  {
    seq(|ks|, i requires 0 <= i < |ks| => SlowExponent(tt, ks[i]))
  }

  /** The normaliser `sqrt(2 pi tt^3)` of the small-time series; positive for a positive time. */
  function FastNormaliser(m: Math, tt: real): (q: real)
    requires Lawful(m) && tt > 0.0
    ensures q > 0.0
  {
    assert 2.0 * Pi * (tt * tt * tt) > 0.0;
    m.sqrt(2.0 * Pi * (tt * tt * tt))
  }

  /** `ftt01w_fast` on one row: the small-time series, summed after a log-sum-exp shift. */
  function FastRow(m: Math, tt: real, w: real, kTerms: int): real
    requires Lawful(m) && tt > 0.0 && kTerms >= 1
  {
    var ys := FastYs(w, FastIndices(kTerms));
    LogSumExp(m, ys, FastRs(tt, ys)) / FastNormaliser(m, tt)
  }

  /** `ftt01w_slow` on one row: the large-time series. */
  function SlowRow(m: Math, tt: real, w: real, kTerms: int): real
  {
    var ks := SlowIndices(kTerms);
    ShiftedSum(m, SlowYs(m, w, ks), SlowRs(tt, ks), 0.0) * Pi
  }

  /** One term `y * exp(-y^2 / (2 tt))` of the small-time series, with `y = w + 2k`. */
  function FastTerm(m: Math, tt: real, w: real, k: int): real
    requires tt != 0.0
  {
    var y := w + 2.0 * k as real;
    y * m.exp(FastExponent(tt, y))
  }

  /** Reference definition: the sum of the small-time terms for k = lo, ..., hi - 1. */
  function FastSeries(m: Math, tt: real, w: real, lo: int, hi: int): real
    requires tt != 0.0
    decreases hi - lo
  {
    if lo >= hi then 0.0 else FastTerm(m, tt, w, lo) + FastSeries(m, tt, w, lo + 1, hi)
  }

  /** One term `k sin(k pi w) exp(-k^2 pi^2 tt / 2)` of the large-time series. */
  function SlowTerm(m: Math, tt: real, w: real, k: int): real
  {
    SlowY(m, w, k) * m.exp(SlowExponent(tt, k))
  }

  /** Reference definition: the sum of the large-time terms for k = lo, ..., hi - 1. */
  function SlowSeries(m: Math, tt: real, w: real, lo: int, hi: int): real
    decreases hi - lo
  {
    if lo >= hi then 0.0 else SlowTerm(m, tt, w, lo) + SlowSeries(m, tt, w, lo + 1, hi)
  }

  /** The first term and the tail of the fast series' coefficients and exponents over lo, ..., hi - 1. */
  lemma FastStep(tt: real, w: real, lo: int, hi: int)
    requires tt != 0.0 && lo < hi
    ensures FastYs(w, Arange(lo, hi))[0] == w + 2.0 * lo as real
    ensures FastYs(w, Arange(lo, hi))[1..] == FastYs(w, Arange(lo + 1, hi))
    ensures FastRs(tt, FastYs(w, Arange(lo, hi)))[1..] == FastRs(tt, FastYs(w, Arange(lo + 1, hi)))
  {
    var ks := Arange(lo, hi);
    assert ks[1..] == Arange(lo + 1, hi);
    assert FastYs(w, ks)[1..] == FastYs(w, ks[1..]);
  }

  lemma {:induction false} FastSumIsSeries(m: Math, tt: real, w: real, lo: int, hi: int)
    requires tt != 0.0
    ensures ShiftedSum(m, FastYs(w, Arange(lo, hi)), FastRs(tt, FastYs(w, Arange(lo, hi))), 0.0)
            == FastSeries(m, tt, w, lo, hi)
    decreases hi - lo
  {
    if lo < hi {
      var ys := FastYs(w, Arange(lo, hi));
      var rs := FastRs(tt, ys);
      FastSumIsSeries(m, tt, w, lo + 1, hi);
      FastStep(tt, w, lo, hi);
      var y := w + 2.0 * lo as real;
      ProductsAgree(ys[0], m.exp(rs[0] - 0.0), y, m.exp(FastExponent(tt, y)));
    }
  }

  /** The first term and the tail of the slow series' coefficients and exponents over lo, ..., hi - 1. */
  lemma SlowStep(m: Math, tt: real, w: real, lo: int, hi: int)
    requires lo < hi
    ensures SlowYs(m, w, Arange(lo, hi))[0] == SlowY(m, w, lo)
    ensures SlowRs(tt, Arange(lo, hi))[0] == SlowExponent(tt, lo)
    ensures SlowYs(m, w, Arange(lo, hi))[1..] == SlowYs(m, w, Arange(lo + 1, hi))
    ensures SlowRs(tt, Arange(lo, hi))[1..] == SlowRs(tt, Arange(lo + 1, hi))
  {
    var ks := Arange(lo, hi);
    assert ks[1..] == Arange(lo + 1, hi);
    assert SlowYs(m, w, ks)[1..] == SlowYs(m, w, ks[1..]);
    assert SlowRs(tt, ks)[1..] == SlowRs(tt, ks[1..]);
  }

  lemma {:induction false} SlowSumIsSeries(m: Math, tt: real, w: real, lo: int, hi: int)
    ensures ShiftedSum(m, SlowYs(m, w, Arange(lo, hi)), SlowRs(tt, Arange(lo, hi)), 0.0)
            == SlowSeries(m, tt, w, lo, hi)
    decreases hi - lo
  {
    if lo < hi {
      var ys := SlowYs(m, w, Arange(lo, hi));
      var rs := SlowRs(tt, Arange(lo, hi));
      SlowSumIsSeries(m, tt, w, lo + 1, hi);
      SlowStep(m, tt, w, lo, hi);
      ProductsAgree(ys[0], m.exp(rs[0] - 0.0), SlowY(m, w, lo), m.exp(SlowExponent(tt, lo)));
    }
  }

  /**
   * The fast series is the normalised sum of the terms for the k indices
   * -floor((k - 1) / 2), ..., ceil((k - 1) / 2).
   */
  lemma FastRowIsSeries(m: Math, tt: real, w: real, kTerms: int)
    requires Lawful(m) && tt > 0.0 && kTerms >= 1
    ensures FastRow(m, tt, w, kTerms)
            == FastSeries(m, tt, w, -((kTerms - 1) / 2), kTerms / 2 + 1) / FastNormaliser(m, tt)
  {
    FastRowOver(m, tt, w, kTerms, -((kTerms - 1) / 2), kTerms / 2 + 1);
  }

  /** The same, with the index range as plain bounds. */
  lemma FastRowOver(m: Math, tt: real, w: real, kTerms: int, lo: int, hi: int)
    requires Lawful(m) && tt > 0.0 && kTerms >= 1 && FastIndices(kTerms) == Arange(lo, hi)
    ensures FastRow(m, tt, w, kTerms) == FastSeries(m, tt, w, lo, hi) / FastNormaliser(m, tt)
  {
    var ys := FastYs(w, Arange(lo, hi));
    var rs := FastRs(tt, ys);
    LogSumExpValue(m, ys, rs);
    FastSumIsSeries(m, tt, w, lo, hi);
    QuotientsAgree(LogSumExp(m, ys, rs), FastSeries(m, tt, w, lo, hi), FastNormaliser(m, tt));
  }

  /** The slow series is pi times the sum of the terms for k = 1, ..., k_terms. */
  lemma SlowRowIsSeries(m: Math, tt: real, w: real, kTerms: int)
    ensures SlowRow(m, tt, w, kTerms) == Pi * SlowSeries(m, tt, w, 1, kTerms + 1)
  {
    SlowSumIsSeries(m, tt, w, 1, kTerms + 1);
  }

  // ---------------------------------------------------------------------
  // ftt01w

  /** `rt / a^2`: a response time on the scale of a unit boundary; positive when rt is. */
  function NormalTime(rt: real, a: real): (tt: real)
    requires a != 0.0
    ensures rt > 0.0 ==> tt > 0.0
  {
    rt / (a * a)
  }

  /**
   * `ftt01w` on one row: the time is normalised by the squared boundary and
   * the indicator blend of the two series is the series `compute_k` picks.
   */
  function Ftt01wRow(m: Math, rt: real, a: real, w: real, err: real, kTerms: int): (r: real)
    requires Lawful(m) && rt > 0.0 && a != 0.0 && kTerms >= 1
    ensures r == if ComputeK(m, rt, err) then FastRow(m, NormalTime(rt, a), w, kTerms)
                 else SlowRow(m, NormalTime(rt, a), w, kTerms)
  {
    var tt := NormalTime(rt, a);
    var lambda := ComputeK(m, rt, err);
    Indicator(lambda) * FastRow(m, tt, w, kTerms) + (1.0 - Indicator(lambda)) * SlowRow(m, tt, w, kTerms)
  }

  // ---------------------------------------------------------------------
  // logp_ddm and logp_ddm_sdv

  /** A row after the choice flip and the degenerate-time guard. */
  datatype Prepared = Prepared(v: real, z: real, tt: real, degenerate: bool)

  /**
   * The per-row preparation shared by both log-likelihoods: an upper-bound
   * response (positive) mirrors the drift and the starting point, and a
   * decision time at most epsilon is replaced by epsilon and marked degenerate.
   */
  function Prepare(row: Row, v: real, z: real, t: real, epsilon: real): (p: Prepared)
    requires epsilon > 0.0
    ensures row.response > 0.0 ==> p.v == -v && p.z == 1.0 - z
    ensures row.response <= 0.0 ==> p.v == v && p.z == z
    ensures 0.0 <= z <= 1.0 ==> 0.0 <= p.z <= 1.0
    ensures p.degenerate <==> Abs(row.rt) - t <= epsilon
    ensures p.tt >= epsilon
    ensures !p.degenerate ==> p.tt == Abs(row.rt) - t
  {
    var rt := Abs(row.rt);
    var flip := row.response > 0.0;
    var vFlipped := Blend(flip, -v, v);
    var zFlipped := Blend(flip, 1.0 - z, z);
    var decision := rt - t;
    var negativeRt := decision <= epsilon;
    Prepared(vFlipped, zFlipped, Blend(negativeRt, epsilon, decision), negativeRt)
  }

  /** The density floor `maximum(p, exp(LOGP_LB))`. */
  function FloorDensity(m: Math, p: real): (r: real)
    requires Lawful(m)
    ensures r >= m.exp(LogpLb) && r > 0.0
    ensures p >= m.exp(LogpLb) ==> r == p
  {
    Max2(p, m.exp(LogpLb))
  }

  /** The log of a floored density is never below `LOGP_LB`. */
  lemma LogOfFlooredDensity(m: Math, p: real)
    requires Lawful(m)
    ensures m.log(FloorDensity(m, p)) >= LogpLb
  {
    var f := FloorDensity(m, p);
    var e := m.exp(LogpLb);
    assert m.log(e) == LogpLb;
    if f > e {
      assert 0.0 < e < f;
      assert m.log(e) < m.log(f);
    }
  }

  /** `log(maximum(ftt01w(tt, a, z), exp(LOGP_LB)))`, at least `LOGP_LB`. */
  function LogDensity(m: Math, tt: real, a: real, z: real, err: real, kTerms: int): (r: real)
    requires Lawful(m) && tt > 0.0 && a != 0.0 && kTerms >= 1
    ensures r >= LogpLb
  {
    var p := FloorDensity(m, Ftt01wRow(m, tt, a, z, err, kTerms));
    LogOfFlooredDensity(m, Ftt01wRow(m, tt, a, z, err, kTerms));
    m.log(p)
  }

  /** The drift and boundary terms `v a z + v^2 tt / 2 + 2 log a` subtracted from the log density. */
  function DriftTerms(m: Math, p: Prepared, a2: real): real
  {
    p.v * a2 * p.z + p.v * p.v * p.tt / 2.0 + 2.0 * m.log(a2)
  }

  /**
   * `logp_ddm`'s value for a prepared row (the boundary `a` is doubled before
   * use): `LOGP_LB` on a degenerate row, otherwise a log density that is at
   * least `LOGP_LB` less the drift and boundary terms.
   */
  function DdmLogp(m: Math, p: Prepared, a: real, err: real, kTerms: int): (r: real)
    requires Lawful(m) && p.tt > 0.0 && a != 0.0 && kTerms >= 1
    ensures p.degenerate ==> r == LogpLb
    ensures !p.degenerate ==> r + DriftTerms(m, p, a * 2.0) >= LogpLb
  {
    var a2 := a * 2.0;
    var logDensity := LogDensity(m, p.tt, a2, p.z, err, kTerms);
    Blend(p.degenerate, LogpLb, logDensity - DriftTerms(m, p, a2))
  }

  /** `logp_ddm_sdv`'s formula for a prepared row, with across-trial drift variability `sv`. */
  function SdvLogp(m: Math, p: Prepared, a: real, sv: real, err: real, kTerms: int): (r: real)
    requires Lawful(m) && p.tt > 0.0 && a != 0.0 && kTerms >= 1
    ensures p.degenerate ==> r == LogpLb
    ensures !p.degenerate ==> r - SdvTerms(m, p, a * 2.0, sv) >= LogpLb
  {
    var a2 := a * 2.0;
    var logDensity := LogDensity(m, p.tt, a2, p.z, err, kTerms);
    Blend(p.degenerate, LogpLb, logDensity + SdvTerms(m, p, a2, sv))
  }

  /**
   * The terms added to the log density under drift variability:
   * `((a z sv)^2 - 2 a v z - v^2 tt) / (2 sv^2 tt + 2) - log(sv^2 tt + 1) / 2 - 2 log a`.
   */
  function SdvTerms(m: Math, p: Prepared, a2: real, sv: real): real
    requires p.tt > 0.0
  {
    SdvExponent(a2, p.v, p.z, p.tt, sv) - 0.5 * m.log(SdvSpread(sv, p.tt)) - 2.0 * m.log(a2)
  }

  /** The variance factor `sv^2 tt + 1` of the drift-averaged density; at least 1 for a non-negative time. */
  function SdvSpread(sv: real, tt: real): (r: real)
    ensures tt >= 0.0 ==> r >= 1.0
  {
    assert tt >= 0.0 ==> sv * sv * tt >= 0.0 by {
      assert sv * sv >= 0.0;
    }
    sv * sv * tt + 1.0
  }

  /** The rational part `((a z sv)^2 - 2 a v z - v^2 tt) / (2 sv^2 tt + 2)` of those terms. */
  function SdvExponent(a2: real, v: real, z: real, tt: real, sv: real): real
    requires tt > 0.0
  {
    var azs := a2 * z * sv;
    assert 2.0 * (sv * sv) * tt + 2.0 > 0.0;
    (azs * azs - 2.0 * a2 * v * z - (v * v) * tt) / (2.0 * (sv * sv) * tt + 2.0)
  }

  /** `logp_ddm` on one row. */
  function LogpDdmRow(m: Math, row: Row, v: real, a: real, z: real, t: real,
                      err: real, kTerms: int, epsilon: real): real
    requires Lawful(m) && a != 0.0 && kTerms >= 1 && epsilon > 0.0
  {
    DdmLogp(m, Prepare(row, v, z, t, epsilon), a, err, kTerms)
  }

  /** `logp_ddm_sdv`'s formula on one row. */
  function LogpDdmSdvRow(m: Math, row: Row, v: real, a: real, z: real, t: real, sv: real,
                         err: real, kTerms: int, epsilon: real): real
    requires Lawful(m) && a != 0.0 && kTerms >= 1 && epsilon > 0.0
  {
    SdvLogp(m, Prepare(row, v, z, t, epsilon), a, sv, err, kTerms)
  }

  /** A degenerate row has log-likelihood exactly `LOGP_LB`, whatever the drift, start and variability. */
  lemma DegenerateRow(m: Math, row: Row, v: real, a: real, z: real, t: real, sv: real,
                      err: real, kTerms: int, epsilon: real)
    requires Lawful(m) && a != 0.0 && kTerms >= 1 && epsilon > 0.0
    requires Abs(row.rt) - t <= epsilon
    ensures LogpDdmRow(m, row, v, a, z, t, err, kTerms, epsilon) == LogpLb
    ensures LogpDdmSdvRow(m, row, v, a, z, t, sv, err, kTerms, epsilon) == LogpLb
  {
    var p := Prepare(row, v, z, t, epsilon);
    assert p.degenerate;
  }

  /** With `sv == 0` the variability formula reduces to the `logp_ddm` value. */
  lemma SdvAtZero(m: Math, p: Prepared, a: real, err: real, kTerms: int)
    requires Lawful(m) && p.tt > 0.0 && a != 0.0 && kTerms >= 1
    ensures SdvLogp(m, p, a, 0.0, err, kTerms) == DdmLogp(m, p, a, err, kTerms)
  {
    SdvTermsAtZero(m, p, a * 2.0);
  }

  /** With `sv == 0` the variability terms are the negated drift and boundary terms. */
  lemma SdvTermsAtZero(m: Math, p: Prepared, a2: real)
    requires Lawful(m) && p.tt > 0.0
    ensures SdvTerms(m, p, a2, 0.0) == -DriftTerms(m, p, a2)
  {
    LogOfOne(m);
    assert SdvSpread(0.0, p.tt) == 1.0;
    var azs := a2 * p.z * 0.0;
    assert azs == 0.0;
    assert (azs * azs - 2.0 * a2 * p.v * p.z - (p.v * p.v) * p.tt) / (2.0 * (0.0 * 0.0) * p.tt + 2.0)
           == - p.v * a2 * p.z - p.v * p.v * p.tt / 2.0;
    assert SdvExponent(a2, p.v, p.z, p.tt, 0.0) == - p.v * a2 * p.z - p.v * p.v * p.tt / 2.0;
  }

  /**
   * An upper-bound response is the mirror image of a lower-bound one: the row
   * with a positive response has the likelihood of the row with the opposite
   * response under drift -v and starting point 1 - z.
   */
  lemma ChoiceMirror(m: Math, rt: real, response: real, v: real, a: real, z: real, t: real,
                     err: real, kTerms: int, epsilon: real)
    requires Lawful(m) && a != 0.0 && kTerms >= 1 && epsilon > 0.0
    requires response > 0.0
    ensures LogpDdmRow(m, Row(rt, response), v, a, z, t, err, kTerms, epsilon)
            == LogpDdmRow(m, Row(rt, -response), -v, a, 1.0 - z, t, err, kTerms, epsilon)
  {
    var p := Prepare(Row(rt, response), v, z, t, epsilon);
    var q := Prepare(Row(rt, -response), -v, 1.0 - z, t, epsilon);
    assert 1.0 - (1.0 - z) == z;
    assert p == q;
    assert DdmLogp(m, p, a, err, kTerms) == DdmLogp(m, q, a, err, kTerms);
  }

  /** The same mirror holds for `logp_ddm_sdv`, whatever the drift variability. */
  lemma ChoiceMirrorSdv(m: Math, rt: real, response: real, v: real, a: real, z: real, t: real, sv: real,
                        err: real, kTerms: int, epsilon: real)
    requires Lawful(m) && a != 0.0 && kTerms >= 1 && epsilon > 0.0
    requires response > 0.0
    ensures LogpDdmSdvRow(m, Row(rt, response), v, a, z, t, sv, err, kTerms, epsilon)
            == LogpDdmSdvRow(m, Row(rt, -response), -v, a, 1.0 - z, t, sv, err, kTerms, epsilon)
  {
    var p := Prepare(Row(rt, response), v, z, t, epsilon);
    var q := Prepare(Row(rt, -response), -v, 1.0 - z, t, epsilon);
    assert 1.0 - (1.0 - z) == z;
    assert p == q;
    assert SdvLogp(m, p, a, sv, err, kTerms) == SdvLogp(m, q, a, sv, err, kTerms);
  }

  /** The conditions `logp_ddm` attaches, in order. */
  function DdmChecks(a: real, z: real): (cs: seq<Check>)
    ensures Messages(cs) == ["a >= 0", "z >= 0", "z <= 1"]
    ensures AllHold(cs) <==> a >= 0.0 && 0.0 <= z <= 1.0
  {
    var cs := [Check("a >= 0", a * 2.0 >= 0.0), Check("z >= 0", z >= 0.0), Check("z <= 1", z <= 1.0)];
    assert AllHold(cs) ==> cs[0].holds && cs[1].holds && cs[2].holds;
    cs
  }

  /** `logp_ddm`: the row-wise log-likelihoods with the conditions a >= 0 and 0 <= z <= 1. */
  function LogpDdm(m: Math, data: seq<Row>, v: real, a: real, z: real, t: real,
                   err: real, kTerms: int, epsilon: real): (r: Checked)
    requires Lawful(m) && a != 0.0 && kTerms >= 1 && epsilon > 0.0
    ensures |r.logp| == |data|
    ensures forall i :: 0 <= i < |data| ==> r.logp[i] == LogpDdmRow(m, data[i], v, a, z, t, err, kTerms, epsilon)
    ensures Messages(r.checks) == ["a >= 0", "z >= 0", "z <= 1"]
    ensures AllHold(r.checks) <==> a >= 0.0 && 0.0 <= z <= 1.0
  {
    Checked(seq(|data|, i requires 0 <= i < |data| => LogpDdmRow(m, data[i], v, a, z, t, err, kTerms, epsilon)),
            DdmChecks(a, z))
  }

  /**
   * `logp_ddm_sdv`: delegates to `logp_ddm` when `sv == 0`; otherwise the
   * variability formula with the extra condition sv > 0. Either way every
   * row is the variability formula at the given `sv`.
   */
  function LogpDdmSdv(m: Math, data: seq<Row>, v: real, a: real, z: real, t: real, sv: real,
                      err: real, kTerms: int, epsilon: real): (r: Checked)
    requires Lawful(m) && a != 0.0 && kTerms >= 1 && epsilon > 0.0
    ensures sv == 0.0 ==> r == LogpDdm(m, data, v, a, z, t, err, kTerms, epsilon)
    ensures |r.logp| == |data|
    ensures forall i :: 0 <= i < |data| ==>
              r.logp[i] == LogpDdmSdvRow(m, data[i], v, a, z, t, sv, err, kTerms, epsilon)
    ensures sv != 0.0 ==> Messages(r.checks) == ["a >= 0", "z >= 0", "z <= 1", "sv > 0"]
    ensures sv != 0.0 ==> (AllHold(r.checks) <==> a >= 0.0 && 0.0 <= z <= 1.0 && sv > 0.0)
  {
    if sv == 0.0 then
      var r := LogpDdm(m, data, v, a, z, t, err, kTerms, epsilon);
      assert forall i :: 0 <= i < |data| ==>
               r.logp[i] == LogpDdmSdvRow(m, data[i], v, a, z, t, sv, err, kTerms, epsilon) by {
        forall i | 0 <= i < |data| {
          SdvAtZero(m, Prepare(data[i], v, z, t, epsilon), a, err, kTerms);
        }
      }
      r
    else
      var cs := DdmChecks(a, z) + [Check("sv > 0", sv > 0.0)];
      assert Messages(cs) == Messages(DdmChecks(a, z)) + ["sv > 0"];
      assert AllHold(cs) <==> AllHold(DdmChecks(a, z)) && sv > 0.0 by {
        assert forall i :: 0 <= i < 3 ==> cs[i] == DdmChecks(a, z)[i];
        assert cs[3].holds == (sv > 0.0);
      }
      Checked(seq(|data|, i requires 0 <= i < |data| => LogpDdmSdvRow(m, data[i], v, a, z, t, sv, err, kTerms, epsilon)),
              cs)
  }
}
