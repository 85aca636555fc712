/** The two integer conversions the scene generator applies to coordinates,
    on exact real numbers: `round(x)` (Python rounds halves to the even
    neighbour) and `int(x)` (truncation toward zero). */
module Numbers {

  /** `round(x)` for an exact real: the nearest integer, halves going to the
      even one. */
  function RoundHalfEven(x: real): (r: int)
    ensures r as real - 0.5 <= x <= r as real + 0.5
    ensures x == r as real - 0.5 || x == r as real + 0.5 ==> r % 2 == 0
  {
    var f := x.Floor;
    var d := x - f as real;
    if d < 0.5 then f
    else if d > 0.5 then f + 1
    else if f % 2 == 0 then f
    else f + 1
  }

  /** The two conditions above pin the result down: there is only one
      nearest integer with even ties. */
  lemma RoundHalfEvenUnique(x: real, n: int)
    requires n as real - 0.5 <= x <= n as real + 0.5
    requires x == n as real - 0.5 || x == n as real + 0.5 ==> n % 2 == 0
    ensures RoundHalfEven(x) == n
  {
    var r := RoundHalfEven(x);
    assert r as real - 0.5 <= x <= r as real + 0.5;
  }

  /** An integer is its own rounding. */
  lemma RoundInt(n: int)
    ensures RoundHalfEven(n as real) == n
  {
    RoundHalfEvenUnique(n as real, n);
  }

  /** Pins the tie-break of `round`: halves go to the even neighbour, on
      both sides of zero; non-ties go to the nearest integer. */
  lemma RoundExamples()
    ensures RoundHalfEven(0.5) == 0 && RoundHalfEven(1.5) == 2 && RoundHalfEven(2.5) == 2
    ensures RoundHalfEven(-0.5) == 0 && RoundHalfEven(-1.5) == -2 && RoundHalfEven(2.6) == 3
    ensures RoundHalfEven(2.4) == 2
  {
    RoundHalfEvenUnique(0.5, 0);
    RoundHalfEvenUnique(1.5, 2);
    RoundHalfEvenUnique(2.5, 2);
    RoundHalfEvenUnique(-0.5, 0);
    RoundHalfEvenUnique(-1.5, -2);
    RoundHalfEvenUnique(2.6, 3);
    RoundHalfEvenUnique(2.4, 2);
  }

  /** `int(x)` for an exact real: truncation toward zero. */
  function Trunc(x: real): (r: int)
    ensures x >= 0.0 ==> 0 <= r && r as real <= x < r as real + 1.0
    ensures x < 0.0 ==> r <= 0 && r as real - 1.0 < x <= r as real
  {
    if x >= 0.0 then x.Floor else -((-x).Floor)
  }

  lemma TruncInt(n: int)
    ensures Trunc(n as real) == n
  {
  }

  /** Pins the direction of `int(x)`: truncation differs from the floor on
      negative non-integers. */
  lemma TruncExamples()
    ensures Trunc(2.7) == 2 && Trunc(-2.7) == -2 && (-2.7).Floor == -3
  {
  }
}
