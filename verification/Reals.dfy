/** Exact arithmetic shared by every module: instants and durations are integer
    nanoseconds, token counts and rates are reals. */
module Reals {

  /** Nanoseconds in a second. */
  const SECOND: int := 1_000_000_000

  /** The largest time.Duration. */
  const MAX_DURATION: int := 0x7FFF_FFFF_FFFF_FFFF

  /** A float64 that arrived from outside: a number, or one of the values
      arithmetic cannot use. */
  datatype Float = Number(value: real) | NaN | PosInf | NegInf

  function Min(a: real, b: real): real {
    if a <= b then a else b
  }

  function Max(a: real, b: real): real {
    if a >= b then a else b
  }

  /** Tokens earned at `rate` tokens a second over `span` nanoseconds. */
  function Refill(rate: real, span: int): real {
    rate / 1000000000.0 * span as real
  }

  /** Nanoseconds it takes to earn `tokens` at `rate`. */
  function Span(rate: real, tokens: real): real
    requires rate > 0.0
  {
    tokens / rate * 1000000000.0
  }

  /** Go's conversion of a float to a Duration: truncation toward zero, and an
      unspecified value (`wild`) when the number does not fit. */
  function ToDuration(x: real, wild: int): int {
    if -9223372036854775808.0 <= x < 9223372036854775808.0 then
      if x >= 0.0 then x.Floor else -((-x).Floor)
    else wild
  }

  lemma RefillMonotone(rate: real, a: int, b: int)
    requires rate >= 0.0 && a <= b
    ensures Refill(rate, a) <= Refill(rate, b)
  {
    var per := rate / 1000000000.0;
    assert per * (b - a) as real >= 0.0;
    assert per * b as real == per * a as real + per * (b - a) as real;
  }

  lemma RefillAdds(rate: real, a: int, b: int)
    ensures Refill(rate, a + b) == Refill(rate, a) + Refill(rate, b)
  {
    var per := rate / 1000000000.0;
    assert (a + b) as real == a as real + b as real;
  }

  /** Two bounds in a row. */
  lemma RefillChain(rate: real, a: int, b: int, x: real, y: real, z: real)
    requires y <= x + Refill(rate, a) && z <= y + Refill(rate, b)
    ensures z <= x + Refill(rate, a + b)
  {
    RefillAdds(rate, a, b);
  }

  lemma RefillNothing(rate: real)
    ensures Refill(rate, 0) == 0.0
  {
  }

  /** Span is the exact inverse of Refill, stated without a rounding step: a
      whole number of nanoseconds earns `tokens` exactly when it reaches Span. */
  lemma SpanInvertsRefill(rate: real, tokens: real, span: int)
    requires rate > 0.0
    ensures Refill(rate, span) >= tokens <==> span as real >= Span(rate, tokens)
    ensures Refill(rate, span) <= tokens <==> span as real <= Span(rate, tokens)
  {
    var x := Span(rate, tokens);
    var per := rate / 1000000000.0;
    assert per > 0.0;
    assert per * x == tokens by {
      assert tokens / rate * rate == tokens;
    }
    var gap := span as real - x;
    assert per * span as real == per * x + per * gap;
    if gap > 0.0 {
      assert per * gap > 0.0;
    } else if gap < 0.0 {
      assert per * (-gap) > 0.0;
    }
  }
}
