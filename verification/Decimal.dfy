/** Decimal text of integers: `strconv.Itoa` and `strconv.Atoi` on 64-bit integers. */
module Decimal {
  import opened Basics

  const MIN_INT := -0x8000_0000_0000_0000
  const MAX_INT := 0x7FFF_FFFF_FFFF_FFFF

  predicate IsInt64(n: int) {
    MIN_INT <= n <= MAX_INT
  }

  function Digit(d: nat): char
    requires d < 10
  {
    '0' + d as char
  }

  function Digits(n: nat): (s: string)
    ensures s != [] && AllDigits(s)
  {
    if n < 10 then [Digit(n)] else Digits(n / 10) + [Digit(n % 10)]
  }

  function Itoa(n: int): string {
    if n < 0 then ['-'] + Digits(-n) else Digits(n)
  }

  predicate AllDigits(s: string) {
    forall i :: 0 <= i < |s| ==> '0' <= s[i] <= '9'
  }

  function DigitValue(c: char): nat
    requires '0' <= c <= '9'
  {
    c as int - '0' as int
  }

  function DigitsValue(s: string): nat
    requires AllDigits(s)
  {
    if s == [] then 0
    else
      10 * DigitsValue(s[..|s| - 1]) + DigitValue(s[|s| - 1])
  }

  /** An optional sign and at least one digit, with the value in range. */
  function Atoi(s: string): Option<int> {
    var signed := s != [] && (s[0] == '-' || s[0] == '+');
    var digits := if signed then s[1..] else s;
    if digits == [] || !AllDigits(digits) then None
    else
      var magnitude: int := DigitsValue(digits);
      var n: int := if signed && s[0] == '-' then -magnitude else magnitude;
      if IsInt64(n) then Some(n) else None
  }

  lemma {:induction false} DigitsRoundTrip(n: nat)
    ensures DigitsValue(Digits(n)) == n
  {
    if n >= 10 {
      DigitsRoundTrip(n / 10);
      var s := Digits(n);
      assert s[..|s| - 1] == Digits(n / 10);
    }
  }

  /** Reading back what was printed gives the same integer. */
  lemma AtoiOfItoa(n: int)
    requires IsInt64(n)
    ensures Atoi(Itoa(n)) == Some(n)
  {
    DigitsRoundTrip(Magnitude(n));
    AtoiOfSigned(Itoa(n), n, Digits(Magnitude(n)));
  }

  function Zeros(z: nat): (s: string)
    ensures |s| == z && AllDigits(s)
  {
    seq(z, _ => '0')
  }

  lemma {:induction false} ZerosInFront(z: nat, s: string)
    requires AllDigits(s)
    ensures AllDigits(Zeros(z) + s) && DigitsValue(Zeros(z) + s) == DigitsValue(s)
  {
    var t := Zeros(z) + s;
    if s != [] {
      ZerosInFront(z, s[..|s| - 1]);
      assert t[..|t| - 1] == Zeros(z) + s[..|s| - 1];
    } else if z != 0 {
      ZerosInFront(z - 1, []);
      assert t[..|t| - 1] == Zeros(z - 1) + [];
    }
  }

  /** Digits are leading zeros and then their value as it is printed. */
  lemma {:induction false} DigitsArePrinted(s: string) returns (z: nat)
    requires s != [] && AllDigits(s)
    ensures s == Zeros(z) + Digits(DigitsValue(s))
  {
    z := 0;
    var front, d := s[..|s| - 1], DigitValue(s[|s| - 1]);
    assert DigitsValue(s) == 10 * DigitsValue(front) + d && s == front + [Digit(d)];
    if front != [] {
      z := DigitsArePrinted(front);
      if DigitsValue(front) == 0 {
        z := z + 1;
        assert Zeros(z) == Zeros(z - 1) + ['0'];
      }
    }
  }

  function Magnitude(n: int): nat {
    if n < 0 then -n else n
  }

  /** Digits with no sign or the right one; zero has both. */
  predicate SignedAs(s: string, n: int, digits: string) {
    (n >= 0 && (s == digits || s == ['+'] + digits)) || (n <= 0 && s == ['-'] + digits)
  }

  /** The text is the integer as it is printed, up to leading zeros and a sign that says nothing. */
  ghost predicate Means(s: string, n: int) {
    exists z: nat :: SignedAs(s, n, Zeros(z) + Digits(Magnitude(n)))
  }

  lemma AtoiOfSigned(s: string, n: int, digits: string)
    requires IsInt64(n) && digits != [] && AllDigits(digits) && DigitsValue(digits) == Magnitude(n)
    requires SignedAs(s, n, digits)
    ensures Atoi(s) == Some(n)
  {
    if s != digits {
      assert s[1..] == digits;
    }
  }

  lemma AtoiIsSigned(s: string, n: int) returns (digits: string)
    requires Atoi(s) == Some(n)
    ensures digits != [] && AllDigits(digits) && DigitsValue(digits) == Magnitude(n) && SignedAs(s, n, digits)
  {
    digits := if s[0] == '-' || s[0] == '+' then s[1..] else s;
    assert s == [s[0]] + s[1..];
  }

  /** Atoi reads exactly such texts of 64-bit integers. */
  lemma AtoiReadsExactly(s: string, n: int)
    ensures Atoi(s) == Some(n) <==> IsInt64(n) && Means(s, n)
  {
    if Atoi(s) == Some(n) {
      var digits := AtoiIsSigned(s, n);
      var z := DigitsArePrinted(digits);
      assert SignedAs(s, n, Zeros(z) + Digits(Magnitude(n)));
    }
    if IsInt64(n) && Means(s, n) {
      var z: nat :| SignedAs(s, n, Zeros(z) + Digits(Magnitude(n)));
      DigitsRoundTrip(Magnitude(n));
      ZerosInFront(z, Digits(Magnitude(n)));
      AtoiOfSigned(s, n, Zeros(z) + Digits(Magnitude(n)));
    }
  }
}
