/** Connection names, the keys of the server's map: the server's name and "-ipPort#id" cut to a 64-byte buffer. */
module ConnectionNames {
  import opened Numerals

  const ROOM := 63   // sizeof buf without the NUL
  const INT_MAX := 0x7fff_ffff

  function Cut(s: string): string {
    if |s| > ROOM then s[..ROOM] else s
  }

  function Suffix(ipPort: string, id: nat): string {
    Cut("-" + ipPort + "#" + Decimal(id))
  }

  function Name(server: string, ipPort: string, id: nat): string {
    server + Suffix(ipPort, id)
  }

  lemma SamePrefix(p: string, a: string, b: string)
    requires p + a == p + b
    ensures a == b
  {
    assert (p + a)[|p|..] == a && (p + b)[|p|..] == b;
  }

  lemma DecimalInjective(a: nat, b: nat)
    requires Decimal(a) == Decimal(b)
    ensures a == b
  {
    RoundTrip(a);
    RoundTrip(b);
  }

  lemma IdLength(id: nat)
    requires id <= INT_MAX
    ensures |Decimal(id)| <= 10
  {
    assert Power(10, 4) == 1_0000;
    assert Power(10, 8) == 1_0000_0000;
    assert Power(10, 10) == 100_0000_0000;
    DigitsLength(id, 10);
  }

  lemma NamesDistinct(server: string, ipPort: string, a: nat, b: nat)
    requires |ipPort| <= 51 && a <= INT_MAX && b <= INT_MAX
    requires Name(server, ipPort, a) == Name(server, ipPort, b)
    ensures a == b
  {
    SamePrefix(server, Suffix(ipPort, a), Suffix(ipPort, b));
    IdLength(a);
    IdLength(b);
    SamePrefix("-" + ipPort + "#", Decimal(a), Decimal(b));
    DecimalInjective(a, b);
  }

  // Digits(10^r) and Digits(10^r + 1) differ in the last place only.
  lemma {:induction false} TensLength(r: nat)
    ensures |Digits(Power(10, r))| == r + 1
  {
    if r > 0 {
      TensLength(r - 1);
      assert Power(10, r) / 10 == Power(10, r - 1);
      assert Power(10, r) >= 10 by { PowerGrows(r); }
    }
  }

  lemma {:induction false} PowerMonotone(a: nat, b: nat)
    requires a <= b
    ensures Power(10, a) <= Power(10, b)
    decreases b
  {
    if a < b {
      PowerMonotone(a, b - 1);
    }
  }

  lemma TensBound(r: nat)
    requires r <= 9
    ensures Power(10, r) + 1 <= INT_MAX
  {
    assert Power(10, 4) == 1_0000;
    assert Power(10, 8) == 1_0000_0000;
    assert Power(10, 9) == 10_0000_0000;
    PowerMonotone(r, 9);
  }

  lemma LastDigit(n: nat, d: nat)
    requires n > 0 && d < 10
    ensures Digits(10 * n + d) == Digits(n) + [Digit(d)]
  {
  }

  lemma Neighbours(r: nat)
    requires r > 0
    ensures |Digits(Power(10, r))| == |Digits(Power(10, r) + 1)| == r + 1
    ensures Digits(Power(10, r))[..r] == Digits(Power(10, r) + 1)[..r]
  {
    var n := Power(10, r - 1);
    PowerMonotone(0, r - 1);
    TensLength(r - 1);
    LastDigit(n, 0);
    LastDigit(n, 1);
    assert (Digits(n) + [Digit(0)])[..r] == Digits(n) == (Digits(n) + [Digit(1)])[..r];
  }

  // A cut that keeps r digits of the id cannot tell 10^r from 10^r + 1; one that keeps none, 1 from 2.
  lemma LongAddressClashes(server: string, ipPort: string) returns (a: nat, b: nat)
    requires |ipPort| > 51
    ensures 1 <= a < b <= INT_MAX && Name(server, ipPort, a) == Name(server, ipPort, b)
  {
    var head := "-" + ipPort + "#";
    if |head| >= ROOM {
      a, b := 1, 2;
      assert Suffix(ipPort, a) == head[..ROOM] == Suffix(ipPort, b);
    } else {
      var r := ROOM - |head|;
      Neighbours(r);
      TensBound(r);
      a, b := Power(10, r), Power(10, r) + 1;
      PowerGrows(r);
      assert Suffix(ipPort, a) == head + Digits(a)[..r];
      assert Suffix(ipPort, b) == head + Digits(b)[..r];
    }
  }

  ghost predicate AllDistinct(server: string, ipPort: string) {
    forall a: nat, b: nat :: 1 <= a < b <= INT_MAX ==> Name(server, ipPort, a) != Name(server, ipPort, b)
  }

  // Exactly when the address leaves room for ten digits do all ids get different names.
  lemma NamesDistinctIff(server: string, ipPort: string)
    ensures AllDistinct(server, ipPort) <==> |ipPort| <= 51
  {
    if |ipPort| <= 51 {
      forall a: nat, b: nat | 1 <= a < b <= INT_MAX ensures Name(server, ipPort, a) != Name(server, ipPort, b) {
        if Name(server, ipPort, a) == Name(server, ipPort, b) {
          NamesDistinct(server, ipPort, a, b);
        }
      }
    } else {
      var a, b := LongAddressClashes(server, ipPort);
    }
  }

  // ---------- the names a server gives ----------

  type Octet = n: nat | n < 0x100
  type Port = n: nat | n < 0x1_0000

  datatype Address = Address(a: Octet, b: Octet, c: Octet, d: Octet, port: Port)

  // InetAddress::toIpPort; addresses are IPv4.
  function ToIpPort(x: Address): string {
    Decimal(x.a) + "." + Decimal(x.b) + "." + Decimal(x.c) + "." + Decimal(x.d) + ":" + Decimal(x.port)
  }

  lemma AddressFits(x: Address)
    ensures |ToIpPort(x)| <= 21
  {
    assert Power(10, 3) == 1000 && Power(10, 5) == 10_0000;
    DigitsLength(x.a, 3);
    DigitsLength(x.b, 3);
    DigitsLength(x.c, 3);
    DigitsLength(x.d, 3);
    DigitsLength(x.port, 5);
  }

  // The key of a connection in the map of a server at `x`, which is named by its address
  function ConnName(x: Address, id: nat): string {
    Name(ToIpPort(x), ToIpPort(x), id)
  }

  // Whatever the address, all ids an int can hold get different names.
  lemma ConnNamesDistinct(x: Address, a: nat, b: nat)
    requires a <= INT_MAX && b <= INT_MAX && ConnName(x, a) == ConnName(x, b)
    ensures a == b
  {
    AddressFits(x);
    NamesDistinct(ToIpPort(x), ToIpPort(x), a, b);
  }

  // ---------- what a name says ----------

  predicate Without(s: string, x: char) {
    forall i :: 0 <= i < |s| ==> s[i] != x
  }

  // A text is split by the first separator.
  lemma SplitAt(a: string, b: string, x: char, rest: string, rest': string)
    requires Without(a, x) && Without(b, x) && a + [x] + rest == b + [x] + rest'
    ensures a == b && rest == rest'
  {
    var s := a + [x] + rest;
    assert s[|a|] == x && (b + [x] + rest')[|b|] == x;
    assert |a| == |b|;
    assert a == s[..|a|] && b == (b + [x] + rest')[..|b|];
    assert rest == s[|a| + 1..] && rest' == (b + [x] + rest')[|b| + 1..];
  }

  lemma {:induction false} DigitsOnly(n: nat)
    ensures forall i :: 0 <= i < |Digits(n)| ==> '0' <= Digits(n)[i] <= '9'
  {
    if n >= 10 {
      DigitsOnly(n / 10);
    }
  }

  lemma DecimalWithout(n: nat, x: char)
    requires x < '0' || '9' < x
    ensures Without(Decimal(n), x)
  {
    DigitsOnly(n);
  }

  lemma SameNumber(m: nat, n: nat, x: char, rest: string, rest': string)
    requires (x < '0' || '9' < x) && Decimal(m) + [x] + rest == Decimal(n) + [x] + rest'
    ensures m == n && rest == rest'
  {
    DecimalWithout(m, x);
    DecimalWithout(n, x);
    SplitAt(Decimal(m), Decimal(n), x, rest, rest');
    DecimalInjective(m, n);
  }

  function Tail3(x: Address): string {
    Decimal(x.d) + ":" + Decimal(x.port)
  }

  function Tail2(x: Address): string {
    Decimal(x.c) + "." + Tail3(x)
  }

  function Tail1(x: Address): string {
    Decimal(x.b) + "." + Tail2(x)
  }

  lemma Tails(x: Address)
    ensures ToIpPort(x) == Decimal(x.a) + "." + Tail1(x)
  {
  }

  // The text of an address determines the address: no two sockets look the same.
  lemma AddressTextInjective(x: Address, y: Address)
    requires ToIpPort(x) == ToIpPort(y)
    ensures x == y
  {
    Tails(x);
    Tails(y);
    hide ToIpPort, Decimal;
    SameNumber(x.a, y.a, '.', Tail1(x), Tail1(y));
    SameNumber(x.b, y.b, '.', Tail2(x), Tail2(y));
    SameNumber(x.c, y.c, '.', Tail3(x), Tail3(y));
    SameNumber(x.d, y.d, ':', Decimal(x.port), Decimal(y.port));
    DecimalInjective(x.port, y.port);
  }

  // While the suffix fits, a name is the server's name, '-', the address, '#' and the id in decimal.
  lemma NameReadsBack(server: string, ipPort: string, id: nat)
    requires |ipPort| <= 51 && id <= INT_MAX
    ensures var n, k := Name(server, ipPort, id), |server| + 1 + |ipPort|;
      && k + 1 < |n| && n[..|server|] == server && n[|server|] == '-' && n[|server| + 1..k] == ipPort && n[k] == '#'
      && Canonical(n[k + 1..]) && Parse(n[k + 1..]) == id
  {
    hide Decimal, Canonical, Name;
    RoundTrip(id);
    FullName(server, ipPort, id);
    Pieces(server, ipPort, Decimal(id));
  }

  lemma FullName(server: string, ipPort: string, id: nat)
    requires |ipPort| <= 51 && id <= INT_MAX
    ensures Name(server, ipPort, id) == server + "-" + ipPort + "#" + Decimal(id)
    ensures Decimal(id) != []
  {
    IdLength(id);
    var suffix := "-" + ipPort + "#" + Decimal(id);
    assert Suffix(ipPort, id) == suffix;
    assert server + suffix == server + "-" + ipPort + "#" + Decimal(id);
  }

  lemma Pieces(a: string, b: string, c: string)
    ensures var n, k := a + "-" + b + "#" + c, |a| + 1 + |b|;
      n[..|a|] == a && n[|a|] == '-' && n[|a| + 1..k] == b && n[k] == '#' && n[k + 1..] == c
  {
  }

  // A longer suffix is cut after 63 characters.
  lemma LongNameIsCut(server: string, ipPort: string, id: nat)
    ensures |Name(server, ipPort, id)| <= |server| + 63
    ensures Name(server, ipPort, id) <= server + "-" + ipPort + "#" + Decimal(id)
    ensures |ipPort| + |Decimal(id)| >= 61 ==> |Name(server, ipPort, id)| == |server| + 63
  {
    assert server + ("-" + ipPort + "#" + Decimal(id)) == server + "-" + ipPort + "#" + Decimal(id);
  }
}
