/**
 * The two numeric conversions the transformer applies before anything else:
 * `Series.round()` (numpy rounds halves to the even neighbour) followed by
 * `astype(int)`, and a plain `astype(int)`, which truncates toward zero.
 */
module NumericCasts {

  predicate IsEven(n: int) { n % 2 == 0 }

  /** The nearest integer to x; a tie goes to the even one. */
  function RoundHalfEven(x: real): (n: int)
    ensures -0.5 <= x - n as real <= 0.5
    ensures (x - n as real == 0.5 || x - n as real == -0.5) ==> IsEven(n)
  {
    var f := x.Floor;
    var d := x - f as real;
    if d < 0.5 then f
    else if d > 0.5 then f + 1
    else if IsEven(f) then f
    else f + 1
  }

  /** No other integer is as close to x as RoundHalfEven(x) and also satisfies the tie rule. */
  lemma RoundHalfEvenUnique(x: real, m: int)
    requires -0.5 <= x - m as real <= 0.5
    requires (x - m as real == 0.5 || x - m as real == -0.5) ==> IsEven(m)
    ensures m == RoundHalfEven(x)
  {
  }

  lemma RoundHalfEvenTies()
    ensures RoundHalfEven(0.5) == 0 && RoundHalfEven(1.5) == 2 && RoundHalfEven(2.5) == 2
    ensures RoundHalfEven(-0.5) == 0 && RoundHalfEven(-1.5) == -2
  {
  }

  /** The integer part of x: the integer nearest x on the side of zero. */
  function Trunc(x: real): (n: int)
    ensures 0.0 <= x ==> n as real <= x < n as real + 1.0
    ensures x < 0.0 ==> n as real - 1.0 < x <= n as real
  {
    if x >= 0.0 then x.Floor else -((-x).Floor)
  }

  /** Truncation keeps the sign: its result is positive exactly when x is at least one. */
  lemma TruncPositiveIff(x: real)
    ensures Trunc(x) > 0 <==> x >= 1.0
  {
  }
}
