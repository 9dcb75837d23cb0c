/** Decimal numerals: what `str(n)` and the zero-padded format write, and how they read back. */
module Decimal {

  function Digit(d: nat): char
    requires d < 10
  {
    ('0' as int + d) as char
  }

  predicate IsDigit(c: char) {
    '0' <= c <= '9'
  }

  ghost predicate AllDigits(s: string) {
    forall i :: 0 <= i < |s| ==> IsDigit(s[i])
  }

  function Digits(n: nat): string {
    if n < 10 then [Digit(n)] else Digits(n / 10) + [Digit(n % 10)]
  }

  /** The number a string of digits denotes; leading zeros do not matter. */
  function Value(s: string): nat {
    if s == [] then 0
    else
      var c := s[|s| - 1];
      Value(s[..|s| - 1]) * 10 + if IsDigit(c) then c as int - '0' as int else 0
  }

  lemma {:induction false} DigitsReadBack(n: nat)
    ensures Digits(n) != [] && AllDigits(Digits(n)) && Value(Digits(n)) == n
  {
    if n >= 10 {
      DigitsReadBack(n / 10);
      assert Digits(n)[..|Digits(n)| - 1] == Digits(n / 10);
    }
  }

  // ---------------------------------------------------------------- fixed width

  function Zeros(n: nat): string {
    if n == 0 then "" else Zeros(n - 1) + "0"
  }

  /** At least `width` characters, filled with zeros from the left. */
  function Pad(n: nat, width: nat): string {
    var d := Digits(n);
    if |d| >= width then d else Zeros(width - |d|) + d
  }

  function PowerOfTen(k: nat): nat {
    if k == 0 then 1 else 10 * PowerOfTen(k - 1)
  }

  lemma {:induction false} DigitsFit(n: nat, width: nat)
    requires width > 0
    ensures |Digits(n)| <= width <==> n < PowerOfTen(width)
    decreases width
  {
    if width == 1 {
      assert PowerOfTen(1) == 10 * PowerOfTen(0);
      if n >= 10 {
        DigitsReadBack(n / 10);
      }
    } else if n >= 10 {
      DigitsFit(n / 10, width - 1);
      var p := PowerOfTen(width - 1);
      assert n / 10 < p <==> n < 10 * p;
    } else {
      DigitsFit(n, width - 1);
    }
  }

  lemma {:induction false} ZerosAreNothing(k: nat)
    ensures |Zeros(k)| == k && AllDigits(Zeros(k)) && Value(Zeros(k)) == 0
  {
    if k > 0 {
      ZerosAreNothing(k - 1);
      assert Zeros(k)[..k - 1] == Zeros(k - 1);
    }
  }

  lemma {:induction false} ZerosRead(k: nat, s: string)
    requires |Zeros(k)| == k
    ensures Value(Zeros(k) + s) == Value(s)
  {
    var longer := Zeros(k) + s;
    if s == [] {
      ZerosAreNothing(k);
      assert longer == Zeros(k);
    } else {
      var init := s[..|s| - 1];
      ZerosRead(k, init);
      assert longer[..|longer| - 1] == Zeros(k) + init;
      assert longer[|longer| - 1] == s[|s| - 1];
    }
  }

  lemma AllDigitsJoin(a: string, b: string)
    requires AllDigits(a) && AllDigits(b)
    ensures AllDigits(a + b)
  {
  }

  /** A padded numeral has exactly its width when the number fits, and denotes the number. */
  lemma PadReadsBack(n: nat, width: nat)
    requires width > 0
    ensures AllDigits(Pad(n, width)) && Value(Pad(n, width)) == n && |Pad(n, width)| >= width
    ensures |Pad(n, width)| == width <==> n < PowerOfTen(width)
  {
    hide Digits, Value, Zeros, PowerOfTen, AllDigits;
    DigitsReadBack(n);
    DigitsFit(n, width);
    if |Digits(n)| < width {
      var k := width - |Digits(n)|;
      ZerosAreNothing(k);
      ZerosRead(k, Digits(n));
      AllDigitsJoin(Zeros(k), Digits(n));
    }
  }
}
