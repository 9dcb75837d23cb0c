/** Python's `round`, on exact reals. */
module Rounding {

  /** Python's `round(x)`: to the nearest integer, ties to even. */
  function RoundHalfEven(x: real): int {
    var f := x.Floor;
    var d := x - f as real;
    if d < 0.5 then f else if d > 0.5 then f + 1 else if f % 2 == 0 then f else f + 1
  }

  function Round3(x: real): real {
    RoundHalfEven(x * 1000.0) as real / 1000.0
  }

  /** The nearest integer, and the even one of two. */
  lemma RoundIsNearest(x: real)
    ensures var r := RoundHalfEven(x);
            && x - 0.5 <= r as real <= x + 0.5
            && (r as real == x - 0.5 || r as real == x + 0.5 ==> r % 2 == 0)
  {
  }

  ghost predicate Thousandths(x: real, r: int) {
    x == r as real / 1000.0
  }

  /** A multiple of a thousandth, and none is nearer. */
  lemma Round3IsNearest(x: real)
    ensures exists r :: Thousandths(Round3(x), r)
    ensures x - 0.0005 <= Round3(x) <= x + 0.0005
  {
    RoundIsNearest(x * 1000.0);
    assert Thousandths(Round3(x), RoundHalfEven(x * 1000.0));
  }

  lemma RoundMonotone(x: real, y: real)
    requires x <= y
    ensures RoundHalfEven(x) <= RoundHalfEven(y)
  {
  }

  lemma Round3Monotone(x: real, y: real)
    requires x <= y
    ensures Round3(x) <= Round3(y)
  {
    RoundMonotone(x * 1000.0, y * 1000.0);
    var a, b := RoundHalfEven(x * 1000.0), RoundHalfEven(y * 1000.0);
    assert a as real <= b as real;
  }
}
