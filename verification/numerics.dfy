/**
 * Real-number stand-ins for the numeric primitives that both likelihood
 * implementations use: the transcendental functions (left uninterpreted),
 * numpy's pi, 0/1-indicator blends, the elementwise maximum, reductions over
 * the term axis, `arange`, and the deferred parameter checks attached by
 * `check_parameters`.
 *
 * Floating point is modelled by `real`: there is no rounding, no overflow and
 * no NaN or infinity.
 */
module Numerics {

  /** exp, log, sqrt and sin, left uninterpreted; `Lawful` says what is known of them. */
  datatype Math = Math(exp: real -> real, log: real -> real, sqrt: real -> real, sin: real -> real)

  /** numpy's `np.pi`: the double closest to pi, as an exact real. */
  const Pi: real := 3.141592653589793

  /** exp at a sum; named so that the addition law below has a trigger. */
  function ExpOfSum(m: Math, x: real, y: real): real
  {
    m.exp(x + y)
  }

  /**
   * Facts of real analysis about exp, log and sqrt that the proofs use.
   * The real exp, log and sqrt satisfy all of them.
   */
  ghost predicate Lawful(m: Math)
  {
    && (forall x :: m.exp(x) > 0.0)
    && ExpAdds(m)
    && (forall x :: m.log(m.exp(x)) == x)
    && (forall x :: 0.0 < x ==> m.exp(m.log(x)) == x)
    && (forall x, y :: 0.0 < x < y ==> m.log(x) < m.log(y))
    && (forall x :: 0.0 <= x ==> 0.0 <= m.sqrt(x))
    && (forall x :: 0.0 < x ==> 0.0 < m.sqrt(x))
  }

  /** The addition law of exp: exp(x + y) == exp(x) * exp(y). */
  ghost predicate ExpAdds(m: Math)
  {
    forall x, y {:trigger ExpOfSum(m, x, y)} :: ExpOfSum(m, x, y) == m.exp(x) * m.exp(y)
  }

  lemma ExpOfZero(m: Math)
    requires Lawful(m)
    ensures m.exp(0.0) == 1.0
  {
    var e := m.exp(0.0);
    var q := ExpOfSum(m, 0.0, 0.0);
    assert q == e * e;
    assert q == e;
    PositiveIdempotent(e, q);
  }

  lemma PositiveIdempotent(e: real, q: real)
    requires e > 0.0 && q == e * e && q == e
    ensures e == 1.0
  {
    assert e * (e - 1.0) == 0.0;
  }

  lemma LogOfOne(m: Math)
    requires Lawful(m)
    ensures m.log(1.0) == 0.0
  {
    ExpOfZero(m);
    assert m.log(m.exp(0.0)) == 0.0;
  }

  lemma LogBelowOneIsNegative(m: Math, x: real)
    requires Lawful(m) && 0.0 < x < 1.0
    ensures m.log(x) < 0.0
  {
    LogOfOne(m);
  }

  lemma LogAboveOneIsPositive(m: Math, x: real)
    requires Lawful(m) && x > 1.0
    ensures m.log(x) > 0.0
  {
    LogOfOne(m);
    assert 0.0 < 1.0 < x;
  }

  /** Shifting an exponent by c and multiplying by exp(c) gives back the exponential. */
  lemma ExpShift(m: Math, r: real, c: real)
    requires ExpAdds(m)
    ensures m.exp(c) * m.exp(r - c) == m.exp(r)
  {
    assert ExpOfSum(m, r - c, c) == m.exp(r - c) * m.exp(c);
    assert (r - c) + c == r;
  }

  /** Exponentiating a log of a positive number and a shift: exp(c + log s) == exp(c) * s. */
  lemma ExpOfShiftedLog(m: Math, c: real, s: real)
    requires Lawful(m) && s > 0.0
    ensures m.exp(c + m.log(s)) == m.exp(c) * s
  {
    assert ExpOfSum(m, c, m.log(s)) == m.exp(c) * m.exp(m.log(s));
  }

  /** The 0/1 value of a boolean tensor cast to floats. */
  function Indicator(b: bool): real
  {
    if b then 1.0 else 0.0
  }

  /** `b * x + (1 - b) * y` with a 0/1 indicator b: a select. */
  function Blend(b: bool, x: real, y: real): (r: real)
    ensures r == if b then x else y
  {
    Indicator(b) * x + (1.0 - Indicator(b)) * y
  }

  /** Elementwise `maximum` of two values. */
  function Max2(x: real, y: real): (r: real)
    ensures r >= x && r >= y
    ensures r == x || r == y
  {
    if x >= y then x else y
  }

  function Abs(x: real): (r: real)
    ensures r >= 0.0 && (r == x || r == -x)
  {
    if x < 0.0 then -x else x
  }

  /** `max(..., axis=0)` over the term axis; numpy refuses an empty reduction. */
  function MaxOf(s: seq<real>): real
    requires |s| > 0
  {
    if |s| == 1 then s[0] else Max2(s[0], MaxOf(s[1..]))
  }

  /** The reduction is an upper bound of the axis and is attained on it. */
  lemma {:induction false} MaxOfIsMax(s: seq<real>)
    requires |s| > 0
    ensures forall i :: 0 <= i < |s| ==> s[i] <= MaxOf(s)
    ensures exists i :: 0 <= i < |s| && s[i] == MaxOf(s)
  {
    if |s| == 1 {
      assert s[0] == MaxOf(s);
    } else {
      var rest := s[1..];
      MaxOfIsMax(rest);
      assert forall i :: 1 <= i < |s| ==> s[i] == rest[i - 1];
      var j :| 0 <= j < |rest| && rest[j] == MaxOf(rest);
      if s[0] >= MaxOf(rest) {
        assert s[0] == MaxOf(s);
      } else {
        assert s[j + 1] == MaxOf(s);
      }
    }
  }

  /** Sum over the term axis of `ys[i] * exp(rs[i] - c)`. */
  function ShiftedSum(m: Math, ys: seq<real>, rs: seq<real>, c: real): real
    requires |ys| == |rs|
    decreases |ys|
  {
    if |ys| == 0 then 0.0
    else ys[0] * m.exp(rs[0] - c) + ShiftedSum(m, ys[1..], rs[1..], c)
  }

  /** The log-sum-exp shift is exact: exp(c) * sum(y * exp(r - c)) == sum(y * exp(r)). */
  lemma {:induction false} ShiftedSumRescale(m: Math, ys: seq<real>, rs: seq<real>, c: real)
    requires ExpAdds(m) && |ys| == |rs|
    ensures m.exp(c) * ShiftedSum(m, ys, rs, c) == ShiftedSum(m, ys, rs, 0.0)
    decreases |ys|
  {
    if |ys| == 0 {
      assert m.exp(c) * 0.0 == 0.0;
    } else {
      ShiftedSumRescale(m, ys[1..], rs[1..], c);
      ExpShift(m, rs[0], c);
      RescaleStep(m, ys, rs, c);
    }
  }

  /** One step of the rescaling induction, stated without the laws of exp. */
  lemma RescaleStep(m: Math, ys: seq<real>, rs: seq<real>, c: real)
    requires |ys| == |rs| > 0
    requires m.exp(c) * m.exp(rs[0] - c) == m.exp(rs[0])
    requires m.exp(c) * ShiftedSum(m, ys[1..], rs[1..], c) == ShiftedSum(m, ys[1..], rs[1..], 0.0)
    ensures m.exp(c) * ShiftedSum(m, ys, rs, c) == ShiftedSum(m, ys, rs, 0.0)
  {
    var e, x, s := m.exp(c), m.exp(rs[0] - c), ShiftedSum(m, ys[1..], rs[1..], c);
    var ex, es := m.exp(rs[0]), ShiftedSum(m, ys[1..], rs[1..], 0.0);
    assert rs[0] - 0.0 == rs[0];
    Distribute(e, ys[0], x, s, ex, es);
  }

  /** Products of equal factors are equal. */
  lemma ProductsAgree(a: real, b: real, c: real, d: real)
    requires a == c && b == d
    ensures a * b == c * d
  {
  }

  /** Quotients of equal numerators by the same divisor are equal. */
  lemma QuotientsAgree(a: real, b: real, q: real)
    requires q != 0.0 && a == b
    ensures a / q == b / q
  {
  }

  lemma Distribute(e: real, y: real, x: real, s: real, ex: real, es: real)
    requires e * x == ex && e * s == es
    ensures e * (y * x + s) == y * ex + es
  {
  }

  /**
   * The log-sum-exp form of a sum of `y * exp(r)`: shift every exponent by the
   * largest one, sum, and scale back by `exp(c)`.
   */
  function LogSumExp(m: Math, ys: seq<real>, rs: seq<real>): real
    requires |ys| == |rs| > 0
  {
    Product(m.exp(MaxOf(rs)), ShiftedSum(m, ys, rs, MaxOf(rs)))
  }

  /** `x * y`, named so that equal factors give equal products by congruence alone. */
  function Product(x: real, y: real): real
  {
    x * y
  }

  /**
   * The log-sum-exp shift: every shifted exponent is at most 0, one of them is
   * exactly 0, and the shifted form equals the plain sum of `y * exp(r)`.
   */
  lemma LogSumExpIsSum(m: Math, ys: seq<real>, rs: seq<real>)
    requires ExpAdds(m) && |ys| == |rs| > 0
    ensures forall i :: 0 <= i < |rs| ==> rs[i] - MaxOf(rs) <= 0.0
    ensures exists i :: 0 <= i < |rs| && rs[i] - MaxOf(rs) == 0.0
    ensures LogSumExp(m, ys, rs) == ShiftedSum(m, ys, rs, 0.0)
  {
    MaxOfIsMax(rs);
    LogSumExpValue(m, ys, rs);
  }

  lemma LogSumExpValue(m: Math, ys: seq<real>, rs: seq<real>)
    requires ExpAdds(m) && |ys| == |rs| > 0
    ensures LogSumExp(m, ys, rs) == ShiftedSum(m, ys, rs, 0.0)
  {
    RescaleAtMax(m, ys, rs, MaxOf(rs));
  }

  lemma RescaleAtMax(m: Math, ys: seq<real>, rs: seq<real>, c: real)
    requires ExpAdds(m) && |ys| == |rs| > 0 && c == MaxOf(rs)
    ensures Product(m.exp(c), ShiftedSum(m, ys, rs, c)) == ShiftedSum(m, ys, rs, 0.0)
  {
    ShiftedSumRescale(m, ys, rs, c);
  }

  /** The log-sum-exp form in terms of its shift and shifted sum as plain values. */
  lemma LogSumExpParts(m: Math, ys: seq<real>, rs: seq<real>, c: real, s: real)
    requires |ys| == |rs| > 0 && c == MaxOf(rs) && s == ShiftedSum(m, ys, rs, c)
    ensures LogSumExp(m, ys, rs) == m.exp(c) * s
  {
  }

  /** numpy's `arange(lo, hi)` on integers: lo, lo + 1, ..., hi - 1. */
  function Arange(lo: int, hi: int): (r: seq<int>)
    ensures |r| == if lo < hi then hi - lo else 0
    ensures forall i :: 0 <= i < |r| ==> r[i] == lo + i
    decreases hi - lo
  {
    if lo >= hi then [] else [lo] + Arange(lo + 1, hi)
  }

  function Floor(x: real): int
  {
    x.Floor
  }

  function Ceil(x: real): int
  {
    -((-x).Floor)
  }

  /** floor(n / 2) over the reals is integer division by 2. */
  lemma FloorHalf(n: int)
    ensures Floor(n as real / 2.0) == n / 2
  {
    var q := n / 2;
    assert n == 2 * q + n % 2;
    assert q as real <= n as real / 2.0 < q as real + 1.0;
  }

  /** ceil(n / 2) over the reals is (n + 1) div 2. */
  lemma CeilHalf(n: int)
    ensures Ceil(n as real / 2.0) == (n + 1) / 2
  {
    assert -(n as real / 2.0) == (-n) as real / 2.0;
    FloorHalf(-n);
    var q := (n + 1) / 2;
    assert n + 1 == 2 * q + (n + 1) % 2;
  }

  /** One condition attached by `check_parameters`, with its message. */
  datatype Check = Check(msg: string, holds: bool)

  /** A log-likelihood vector with its deferred validity conditions. */
  datatype Checked = Checked(logp: seq<real>, checks: seq<Check>)

  /** The caller accepts the result only when every attached condition holds. */
  predicate AllHold(checks: seq<Check>)
  {
    forall i :: 0 <= i < |checks| ==> checks[i].holds
  }

  function Messages(checks: seq<Check>): (r: seq<string>)
    ensures |r| == |checks|
    ensures forall i :: 0 <= i < |checks| ==> r[i] == checks[i].msg
  {
    if checks == [] then [] else [checks[0].msg] + Messages(checks[1..])
  }
}
