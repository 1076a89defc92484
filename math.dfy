/** Numeric helpers shared by the domain layer: clamping, the ping/m² unit
    conversion, the input-sanitising parse and the `x || 1` division guard. */
module MathUtil {

  /** Margin that keeps every ratio strictly inside (0, 1). */
  const EPSILON: real := 0.001

  /** Square metres in one ping. */
  const M2_PER_PING: real := 3.305785

  /** What `Number(value)` yields for a raw input: a finite number, or NaN / ±Infinity. */
  datatype Num = Finite(value: real) | NonFinite

  /** `Math.min` on two finite numbers. */
  function Min(a: real, b: real): (r: real)
    ensures r <= a && r <= b
    ensures r == a || r == b
  {
    if a <= b then a else b
  }

  /** `Math.max` on two finite numbers. */
  function Max(a: real, b: real): (r: real)
    ensures r >= a && r >= b
    ensures r == a || r == b
  {
    if a >= b then a else b
  }

  /** `Math.min(Math.max(value, min), max)`: the upper bound wins when the bounds cross. */
  function Clamp(v: real, lo: real, hi: real): (r: real)
    ensures lo <= hi ==> lo <= r <= hi
    ensures lo <= v <= hi ==> r == v
    ensures v < lo && lo <= hi ==> r == lo
    ensures v > hi || lo > hi ==> r == hi
  {
    Min(Max(v, lo), hi)
  }

  /** Clamping an already clamped value changes nothing: the result is a fixed point. */
  lemma ClampIdempotent(v: real, lo: real, hi: real)
    ensures Clamp(Clamp(v, lo, hi), lo, hi) == Clamp(v, lo, hi)
  {
  }

  /** The ratio range `[EPSILON, 1 - EPSILON]` is non-empty and stays inside (0, 1). */
  lemma EpsilonRangeNonEmpty()
    ensures 0.0 < EPSILON < 1.0 - EPSILON < 1.0
  {
  }

  /** Square metres to ping. */
  function ToPing(v: real): (r: real)
    ensures r * M2_PER_PING == v
    ensures (v == 0.0) == (r == 0.0)
    ensures (v > 0.0) == (r > 0.0)
  {
    v / M2_PER_PING
  }

  /** Ping to square metres. */
  function FromPing(v: real): (r: real)
    ensures r / M2_PER_PING == v
  {
    v * M2_PER_PING
  }

  /** Over exact reals the two conversions are inverse to each other. */
  lemma PingRoundTrip(v: real)
    ensures FromPing(ToPing(v)) == v
    ensures ToPing(FromPing(v)) == v
  {
  }

  /** The conversion to ping is linear and order-preserving. */
  lemma ToPingLinear(a: real, b: real, c: real)
    ensures ToPing(a + b) == ToPing(a) + ToPing(b)
    ensures ToPing(c * a) == c * ToPing(a)
    ensures a <= b ==> ToPing(a) <= ToPing(b)
  {
    assert ToPing(c * a) == (c * a) / M2_PER_PING == c * (a / M2_PER_PING);
  }

  /** `parseNumber(value, fallback)`: the parsed number when it is finite, else the fallback. */
  function ParseNumber(value: Num, fallback: real): (r: real)
    ensures value.Finite? ==> r == value.value
    ensures value.NonFinite? ==> r == fallback
  {
    match value
    case Finite(x) => x
    case NonFinite => fallback
  }

  /** The JavaScript divisor guard `x || 1`: a zero divisor is replaced by one. */
  function OrOne(x: real): (r: real)
    ensures r != 0.0
    ensures x != 0.0 ==> r == x
  {
    if x == 0.0 then 1.0 else x
  }
}
