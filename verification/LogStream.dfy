/** LogStream: appending text and numerals to a fixed array. */
module LogStreams {
  import opened Numerals

  const MAX_NUMERIC_SIZE := 48   // kMaxNumericSize
  const SIZE := 4000

  function Reversed(s: string): (r: string)
    ensures |r| == |s|
  {
    if s == [] then [] else [s[|s| - 1]] + Reversed(s[..|s| - 1])
  }

  lemma ReversedSnoc(s: string, c: char)
    ensures Reversed(s + [c]) == [c] + Reversed(s)
  {
    assert (s + [c])[..|s|] == s;
  }

  lemma {:induction false} ReversedAt(s: string, t: string)
    requires |s| == |t| && forall i :: 0 <= i < |s| ==> t[i] == s[|s| - 1 - i]
    ensures t == Reversed(s)
    decreases |s|
  {
    if s != [] {
      forall i | 0 <= i < |s| - 1 ensures t[1..][i] == s[..|s| - 1][|s| - 2 - i] {
        assert t[1..][i] == t[i + 1];
      }
      ReversedAt(s[..|s| - 1], t[1..]);
      assert t == [t[0]] + t[1..];
    }
  }

  lemma Reassociate(a: string, b: string, c: string)
    ensures a + (b + c) == (a + b) + c
  {
  }

  // std::reverse on buf[lo..hi]
  method Reverse(buf: array<char>, lo: nat, hi: nat)
    requires lo <= hi <= buf.Length
    modifies buf
    ensures buf[lo..hi] == Reversed(old(buf[lo..hi]))
    ensures forall k :: 0 <= k < lo || hi <= k < buf.Length ==> buf[k] == old(buf[k])
  {
    ghost var was := buf[..];
    var a, b := lo, hi;
    while b - a > 1
      invariant lo <= a <= hi && lo <= b <= hi && a - lo == hi - b && a <= b + 1
      invariant forall k :: lo <= k < a || b <= k < hi ==> buf[k] == was[lo + hi - 1 - k]
      invariant forall k :: a <= k < b ==> buf[k] == was[k]
      invariant forall k :: 0 <= k < lo || hi <= k < buf.Length ==> buf[k] == was[k]
    {
      b := b - 1;
      buf[a], buf[b] := buf[b], buf[a];
      a := a + 1;
    }
    assert forall k :: lo <= k < hi ==> buf[k] == was[lo + hi - 1 - k];
    assert was[lo..hi] == old(buf[lo..hi]);
    forall j | 0 <= j < hi - lo ensures buf[lo..hi][j] == was[lo..hi][hi - lo - 1 - j] {
      assert buf[lo..hi][j] == buf[lo + j] == was[hi - 1 - j];
    }
    ReversedAt(was[lo..hi], buf[lo..hi]);
  }

  // One turn of the digit loop: the last digit moves from the number to the text.
  lemma DigitMoves(n: nat, done: string)
    ensures n >= 10 ==> Digits(n) + Reversed(done) == Digits(n / 10) + Reversed(done + [Digit(n % 10)])
    ensures n < 10 ==> Digits(n) + Reversed(done) == Reversed(done + [Digit(n % 10)])
  {
    ReversedSnoc(done, Digit(n % 10));
    if n >= 10 {
      Reassociate(Digits(n / 10), [Digit(n % 10)], Reversed(done));
    }
  }

  // Storing the last digit and dividing, both by the signed operators
  method PutDigit(buf: array<char>, p: nat, i: int) returns (rest: int)
    requires p < buf.Length
    modifies buf
    ensures buf[p] == Digit(Abs(i) % 10) && Abs(rest) == Abs(i) / 10
    ensures i <= rest <= 0 || 0 <= rest <= i
    ensures forall k :: 0 <= k < buf.Length && k != p ==> buf[k] == old(buf[k])
  {
    TableDigit(i);
    var lsd := TruncatedMod(i, 10);
    rest := TruncatedDiv(i, 10);
    buf[p] := DIGITS[ZERO + lsd];
  }

  // One turn of the loop, for the numeral `text`
  method Turn(buf: array<char>, start: nat, p: nat, i: int, ghost text: string) returns (rest: int)
    requires start <= p < buf.Length && Digits(Abs(i)) + Reversed(buf[start..p]) == text
    modifies buf
    ensures i <= rest <= 0 || 0 <= rest <= i
    ensures rest == 0 || Abs(rest) < Abs(i)
    ensures (if rest == 0 then [] else Digits(Abs(rest))) + Reversed(buf[start..p + 1]) == text
    ensures forall k :: 0 <= k < buf.Length && k != p ==> buf[k] == old(buf[k])
  {
    ghost var done := buf[start..p];
    rest := PutDigit(buf, p, i);
    assert buf[start..p + 1] == done + [Digit(Abs(i) % 10)];
    DigitMoves(Abs(i), done);
  }

  // The digits of a value in reverse.  The number stays between the value and zero, so nothing
  // overflows in the type of the value, and it is never negated.
  method PutDigits(buf: array<char>, start: nat, value: int) returns (p: nat)
    requires start + |Digits(Abs(value))| <= buf.Length
    modifies buf
    ensures p == start + |Digits(Abs(value))|
    ensures Reversed(buf[start..p]) == Digits(Abs(value))
    ensures forall k :: 0 <= k < start || p <= k < buf.Length ==> buf[k] == old(buf[k])
  {
    hide Digits, Reversed;
    ghost var text := Digits(Abs(value));
    var i := value;
    p := start;
    assert Reversed(buf[start..p]) == [];
    while true
      invariant value <= i <= 0 || 0 <= i <= value
      invariant start <= p <= buf.Length && Digits(Abs(i)) + Reversed(buf[start..p]) == text
      invariant forall k :: 0 <= k < start || p <= k < buf.Length ==> buf[k] == old(buf[k])
      decreases Abs(i)
    {
      assert |Digits(Abs(i))| + (p - start) == |text|;
      i := Turn(buf, start, p, i, text);
      p := p + 1;
      if i == 0 {
        break;
      }
    }
  }

  // The whole numeral in reverse: the sign comes last.
  method PutNumeral(buf: array<char>, start: nat, value: int) returns (p: nat)
    requires start + |Decimal(value)| <= buf.Length
    modifies buf
    ensures p == start + |Decimal(value)| && Reversed(buf[start..p]) == Decimal(value)
    ensures forall k :: 0 <= k < start || p <= k < buf.Length ==> buf[k] == old(buf[k])
  {
    p := PutDigits(buf, start, value);
    if value < 0 {
      ghost var done := buf[start..p];
      buf[p] := '-';
      p := p + 1;
      assert buf[start..p] == done + ['-'];
      ReversedSnoc(done, '-');
    }
  }

  // The NUL, then the text in its right order
  method Terminate(buf: array<char>, start: nat, p: nat, ghost text: string)
    requires start <= p < buf.Length && Reversed(buf[start..p]) == text
    modifies buf
    ensures buf[start..p] == text && buf[p] == '\0'
    ensures forall k :: 0 <= k < start || p < k < buf.Length ==> buf[k] == old(buf[k])
  {
    buf[p] := '\0';
    assert buf[start..p] == old(buf[start..p]);
    Reverse(buf, start, p);
  }

  // convert: the numeral and a terminating NUL
  method Convert(buf: array<char>, start: nat, value: int) returns (len: nat)
    requires start + |Decimal(value)| < buf.Length
    modifies buf
    ensures len == |Decimal(value)|
    ensures buf[start..start + len] == Decimal(value) && buf[start + len] == '\0'
    ensures forall k :: 0 <= k < start || start + len < k < buf.Length ==> buf[k] == old(buf[k])
  {
    hide Decimal;
    var p := PutNumeral(buf, start, value);
    Terminate(buf, start, p, Decimal(value));
    len := p - start;
  }

  lemma Joined(buf: array<char>, start: nat, len: nat, before: string, text: string)
    requires start + len <= buf.Length && buf[..start] == before && buf[start..start + len] == text
    ensures buf[..start + len] == before + text
  {
  }

  class LogStream {
    const data: array<char>
    var cur: nat

    ghost predicate Valid()
      reads this, data
    {
      data.Length == SIZE && cur <= SIZE
    }

    ghost function Contents(): string
      requires Valid()
      reads this, data
    {
      data[..cur]
    }

    constructor ()
      ensures Valid() && fresh(data) && Contents() == []
    {
      data := new char[SIZE];
      cur := 0;
    }

    function Avail(): int
      reads this
    {
      data.Length - cur
    }

    // A value of any integer type up to 64 bits
    method FormatInteger(v: int)
      requires Valid() && INT64_MIN <= v <= UINT64_MAX
      modifies this, data
      ensures Valid()
      ensures Contents() == if old(Avail()) >= 48 then old(Contents()) + Decimal(v) else old(Contents())
    {
      if Avail() >= MAX_NUMERIC_SIZE {
        DecimalFits(v);
        ghost var before := data[..cur];
        var len := Convert(data, cur, v);
        Joined(data, cur, len, before, Decimal(v));
        cur := cur + len;
      }
    }

    // operator<<(const void*)
    method FormatPointer(v: nat)
      requires Valid() && v <= UINT64_MAX
      modifies this, data
      ensures Valid()
      ensures Contents() ==
        if old(Avail()) >= 48 then old(Contents()) + "0x" + Hex(v, 16) else old(Contents())
      ensures HexValue(Hex(v, 16)) == v
    {
      PointerReadsBack(v);
      if Avail() >= MAX_NUMERIC_SIZE {
        var buf := cur;
        data[buf], data[buf + 1] := '0', 'x';
        buf := buf + 2;
        ghost var before := data[..buf];
        assert before == old(Contents()) + "0x";
        var i := 15;
        while i >= 0
          invariant cur == old(cur) && -1 <= i <= 15 && buf == cur + 2 + (15 - i)
          invariant data[..buf] == before + Hex(v, 16)[..15 - i]
        {
          HexAt(v, 16, i);
          data[buf] := HexDigit(Shifted(v, i) % 16);
          buf := buf + 1;
          assert data[..buf] == data[..buf - 1] + [Hex(v, 16)[15 - i]];
          i := i - 1;
        }
        cur := buf;
      }
    }
  }
}
