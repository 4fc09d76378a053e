/** Decimal and hexadecimal numerals, and reading them back. */
module Numerals {
  // C division and remainder, which truncate toward zero
  function TruncatedDiv(a: int, b: int): int
    requires b > 0
  {
    if a >= 0 then a / b else -(-a / b)
  }

  function TruncatedMod(a: int, b: int): int
    requires b > 0
  {
    a - b * TruncatedDiv(a, b)
  }

  function Abs(v: int): nat {
    if v < 0 then -v else v
  }

  // The table of digits and the position of zero in it
  const DIGITS := "9876543210123456789"
  const ZERO := 9

  function Digit(n: nat): char
    requires n < 10
  {
    '0' + n as char
  }

  // A negative remainder indexes the left half of the table: no negation is ever needed.
  lemma TableDigit(i: int)
    ensures Abs(TruncatedDiv(i, 10)) == Abs(i) / 10
    ensures -10 < TruncatedMod(i, 10) < 10
    ensures DIGITS[ZERO + TruncatedMod(i, 10)] == Digit(Abs(i) % 10)
    ensures i <= TruncatedDiv(i, 10) <= 0 || 0 <= TruncatedDiv(i, 10) <= i
  {
    var lsd := TruncatedMod(i, 10);
    assert Abs(lsd) == Abs(i) % 10;
    TableSymmetric(lsd);
  }

  lemma TableSymmetric(lsd: int)
    requires -10 < lsd < 10
    ensures DIGITS[ZERO + lsd] == Digit(Abs(lsd))
  {
  }

  function Digits(n: nat): (s: string)
    ensures s != []
  {
    if n < 10 then [Digit(n)] else Digits(n / 10) + [Digit(n % 10)]
  }

  function Decimal(v: int): string {
    if v < 0 then "-" + Digits(-v) else Digits(v)
  }

  predicate IsDigit(c: char) {
    '0' <= c <= '9'
  }

  predicate AllDigits(s: string) {
    forall i :: 0 <= i < |s| ==> IsDigit(s[i])
  }

  // Horner's rule, from the left
  function Value(s: string): nat
    requires AllDigits(s)
  {
    if s == [] then 0 else 10 * Value(s[..|s| - 1]) + (s[|s| - 1] - '0') as nat
  }

  // A numeral as it should be written: no leading zero, no negative zero
  predicate Canonical(s: string) {
    if s != [] && s[0] == '-' then CanonicalDigits(s[1..]) && s[1] != '0' else CanonicalDigits(s)
  }

  predicate CanonicalDigits(s: string) {
    s != [] && AllDigits(s) && (s[0] == '0' ==> |s| == 1)
  }

  function Parse(s: string): int
    requires Canonical(s)
  {
    if s[0] == '-' then -(Value(s[1..]) as int) else Value(s)
  }

  lemma DigitValue(n: nat)
    requires n < 10
    ensures IsDigit(Digit(n)) && (Digit(n) - '0') as nat == n
  {
  }

  lemma ValueDigit(c: char)
    requires IsDigit(c)
    ensures (c - '0') as nat < 10 && Digit((c - '0') as nat) == c
  {
  }

  lemma {:induction false} DigitsCanonical(n: nat)
    ensures CanonicalDigits(Digits(n)) && Value(Digits(n)) == n
    ensures n > 0 ==> Digits(n)[0] != '0'
  {
    DigitValue(n % 10);
    var s := Digits(n);
    if n < 10 {
      assert s[..0] == [];
    } else {
      DigitsCanonical(n / 10);
      assert s[..|s| - 1] == Digits(n / 10);
    }
  }

  lemma {:induction false} CanonicalValue(s: string)
    requires CanonicalDigits(s)
    ensures Digits(Value(s)) == s
    ensures s[0] != '0' ==> Value(s) > 0
    decreases |s|
  {
    var init, last := s[..|s| - 1], s[|s| - 1];
    ValueDigit(last);
    assert s == init + [last];
    if |s| > 1 {
      assert init[0] == s[0];
      CanonicalValue(init);
      assert Value(s) / 10 == Value(init) && Value(s) % 10 == (last - '0') as nat;
    } else {
      assert Value(init) == 0;
    }
  }

  // Every integer is read back from its numeral, and the numeral is canonical.
  lemma RoundTrip(v: int)
    ensures Canonical(Decimal(v)) && Parse(Decimal(v)) == v
  {
    DigitsCanonical(Abs(v));
    if v < 0 {
      assert Decimal(v)[1..] == Digits(-v);
    }
  }

  // A canonical numeral is the one written for its value: Decimal is a bijection onto them.
  lemma OnlyNumeral(s: string)
    requires Canonical(s)
    ensures Decimal(Parse(s)) == s
  {
    if s[0] == '-' {
      CanonicalValue(s[1..]);
      assert s == "-" + s[1..];
    } else {
      CanonicalValue(s);
    }
  }

  function Power(b: nat, e: nat): nat {
    if e == 0 then 1 else b * Power(b, e - 1)
  }

  lemma {:induction false} DigitsLength(n: nat, k: nat)
    requires k > 0
    ensures |Digits(n)| <= k <==> n < Power(10, k)
    decreases k
  {
    assert Power(10, 1) == 10;
    if k == 1 || n < 10 {
      PowerGrows(k);
    } else {
      DigitsLength(n / 10, k - 1);
      assert Power(10, k) == 10 * Power(10, k - 1);
    }
  }

  lemma {:induction false} PowerGrows(k: nat)
    requires k > 0
    ensures Power(10, k) >= 10
    decreases k
  {
    if k > 1 {
      PowerGrows(k - 1);
    }
  }

  lemma PowerOfTen()
    ensures Power(10, 19) == 1_0000_0000_0000_0000_000 && Power(10, 20) == 10 * Power(10, 19)
  {
    assert Power(10, 4) == 1_0000;
    assert Power(10, 8) == 1_0000_0000;
    assert Power(10, 12) == 1_0000_0000_0000;
    assert Power(10, 16) == 1_0000_0000_0000_0000;
  }

  const INT64_MIN := -0x8000_0000_0000_0000
  const UINT64_MAX := 0xffff_ffff_ffff_ffff

  // A value of any integer type up to 64 bits takes at most 20 characters.
  lemma DecimalFits(v: int)
    requires INT64_MIN <= v <= UINT64_MAX
    ensures |Decimal(v)| <= 20
  {
    PowerOfTen();
    DigitsLength(Abs(v), 20);
    DigitsLength(Abs(v), 19);
  }

  function HexDigit(n: nat): char
    requires n < 16
  {
    if n < 10 then '0' + n as char else 'a' + (n - 10) as char
  }

  // v >> 4 * i
  function Shifted(v: nat, i: nat): nat {
    if i == 0 then v else Shifted(v / 16, i - 1)
  }

  // The low k nibbles of v, most significant first
  function Hex(v: nat, k: nat): (s: string)
    ensures |s| == k
  {
    if k == 0 then [] else Hex(v / 16, k - 1) + [HexDigit(v % 16)]
  }

  lemma {:induction false} HexAt(v: nat, k: nat, i: nat)
    requires i < k
    ensures Hex(v, k)[k - 1 - i] == HexDigit(Shifted(v, i) % 16)
  {
    if i > 0 {
      HexAt(v / 16, k - 1, i - 1);
    }
  }

  function Nibble(c: char): nat {
    if '0' <= c <= '9' then (c - '0') as nat else if 'a' <= c <= 'f' then (c - 'a') as nat + 10 else 0
  }

  function HexValue(s: string): nat {
    if s == [] then 0 else 16 * HexValue(s[..|s| - 1]) + Nibble(s[|s| - 1])
  }

  // Enough nibbles give the value back.
  lemma {:induction false} HexRoundTrip(v: nat, k: nat)
    requires v < Power(16, k)
    ensures HexValue(Hex(v, k)) == v
  {
    if k > 0 {
      HexRoundTrip(v / 16, k - 1);
      assert Hex(v, k)[..k - 1] == Hex(v / 16, k - 1);
      assert Nibble(HexDigit(v % 16)) == v % 16;
    }
  }

  lemma PowerOfSixteen()
    ensures Power(16, 16) == UINT64_MAX + 1
  {
    assert Power(16, 4) == 0x1_0000;
    assert Power(16, 8) == 0x1_0000_0000;
    assert Power(16, 12) == 0x1_0000_0000_0000;
  }

  // Sixteen nibbles are a whole pointer.
  lemma PointerReadsBack(v: nat)
    requires v <= UINT64_MAX
    ensures HexValue(Hex(v, 16)) == v
  {
    PowerOfSixteen();
    HexRoundTrip(v, 16);
  }
}
