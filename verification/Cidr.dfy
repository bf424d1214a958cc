/** CIDR strings: how the address dump prints them (crates/common/src/netlink.rs), how the guest
    configuration splits them (crates/daemon/src/api.rs) and how a gateway is inferred from them
    (crates/daemon/src/netns.rs). */
module Cidr {
  import opened Basics

  type u32 = x: int | 0 <= x < 0x1_0000_0000

  // ------------------------------------------------------------------ decimal numbers

  predicate IsDigit(c: char) {
    '0' <= c <= '9'
  }

  predicate AllDigits(s: string) {
    forall i :: 0 <= i < |s| ==> IsDigit(s[i])
  }

  function Digit(n: nat): (c: char)
    requires n < 10
    ensures IsDigit(c) && c as int - '0' as int == n
  {
    '0' + n as char
  }

  function Dec(n: nat): string {
    if n < 10 then [Digit(n)] else Dec(n / 10) + [Digit(n % 10)]
  }

  function Value(s: string): (v: int)
    requires AllDigits(s)
    ensures v >= 0
  {
    if s == "" then 0 else 10 * Value(s[..|s| - 1]) + (s[|s| - 1] as int - '0' as int)
  }

  lemma {:induction false} DecMeans(n: nat)
    ensures AllDigits(Dec(n)) && 1 <= |Dec(n)| && Value(Dec(n)) == n
    ensures Dec(n)[0] == '0' <==> n == 0
    ensures n < 10 ==> |Dec(n)| == 1
    ensures n < 1000 ==> |Dec(n)| <= 3
  {
    if n < 10 {
      assert Dec(n)[..0] == "";
    } else {
      DecMeans(n / 10);
      assert Dec(n)[..|Dec(n)| - 1] == Dec(n / 10);
      if n < 1000 && n / 10 >= 10 {
        DecMeans(n / 10 / 10);
        assert |Dec(n / 10)| == |Dec(n / 10 / 10)| + 1;
      }
    }
  }

  /** Digits without a leading zero are what printing their value gives. */
  lemma {:induction false} DecOfValue(s: string)
    requires AllDigits(s) && 1 <= |s| && (|s| > 1 ==> s[0] != '0')
    ensures Dec(Value(s)) == s
    decreases |s|
  {
    var n := |s| - 1;
    if n == 0 {
      assert Value(s[..0]) == 0;
    } else {
      DecOfValue(s[..n]);
      DecMeans(Value(s[..n]));
      assert Value(s) / 10 == Value(s[..n]);
      assert s == s[..n] + [s[n]];
    }
  }

  /** `str::parse::<u32>`: an optional plus sign, then one or more digits, without overflow. */
  function ParseU32(s: string): Option<u32> {
    var t := if s != "" && s[0] == '+' then s[1..] else s;
    if t != "" && AllDigits(t) && Value(t) < 0x1_0000_0000 then Some(Value(t)) else None
  }

  // ---------------------------------------------------------------------- splitting

  /** `str::split` on one character */
  function Split(s: string, c: char): (parts: seq<string>)
    ensures |parts| >= 1
  {
    if s == "" then [""]
    else
      var rest := Split(s[1..], c);
      if s[0] == c then [""] + rest else [[s[0]] + rest[0]] + rest[1..]
  }

  lemma {:induction false} SplitNone(s: string, c: char)
    requires c !in s
    ensures Split(s, c) == [s]
  {
    if s != "" {
      SplitNone(s[1..], c);
      assert [s[0]] + s[1..] == s;
    }
  }

  lemma {:induction false} SplitFirst(a: string, c: char, b: string)
    requires c !in a
    ensures Split(a + [c] + b, c) == [a] + Split(b, c)
  {
    var s := a + [c] + b;
    if a == "" {
      assert s[1..] == b;
    } else {
      assert s[1..] == a[1..] + [c] + b;
      SplitFirst(a[1..], c, b);
      assert [a[0]] + a[1..] == a;
    }
  }

  function Join(parts: seq<string>, c: char): string
    requires |parts| >= 1
  {
    if |parts| == 1 then parts[0] else parts[0] + [c] + Join(parts[1..], c)
  }

  lemma JoinExtend(x: char, rest: seq<string>, c: char)
    requires |rest| >= 1
    ensures Join([[x] + rest[0]] + rest[1..], c) == [x] + Join(rest, c)
  {
    var parts := [[x] + rest[0]] + rest[1..];
    if |rest| > 1 {
      assert parts[1..] == rest[1..];
      var back := Join(rest[1..], c);
      assert [x] + rest[0] + [c] + back == [x] + (rest[0] + [c] + back);
    }
  }

  lemma JoinCons(first: string, rest: seq<string>, c: char)
    requires |rest| >= 1
    ensures Join([first] + rest, c) == first + [c] + Join(rest, c)
  {
    assert ([first] + rest)[1..] == rest;
  }

  lemma {:induction false} JoinSplit(s: string, c: char)
    ensures Join(Split(s, c), c) == s
  {
    if s != "" {
      JoinSplit(s[1..], c);
      JoinExtend(s[0], Split(s[1..], c), c);
      JoinCons("", Split(s[1..], c), c);
      assert s == [s[0]] + s[1..] && "" + [s[0]] == [s[0]];
    }
  }

  // ---------------------------------------------------------------------- addresses

  datatype Ipv4 = Ipv4(a: byte, b: byte, c: byte, d: byte)

  function ToU32(ip: Ipv4): u32 {
    16777216 * (ip.a as int) + 65536 * (ip.b as int) + 256 * (ip.c as int) + ip.d as int
  }

  function FromU32(x: u32): Ipv4 {
    Ipv4(x / 256 / 256 / 256, x / 256 / 256 % 256, x / 256 % 256, x % 256)
  }

  lemma U32RoundTrip(ip: Ipv4, x: u32)
    ensures FromU32(ToU32(ip)) == ip && ToU32(FromU32(x)) == x
  {
    var y := ToU32(ip);
    assert y / 256 == 65536 * (ip.a as int) + 256 * (ip.b as int) + ip.c as int;
    assert y / 256 / 256 == 256 * (ip.a as int) + ip.b as int;
  }

  /** `Display` of an address */
  function PrintIp(ip: Ipv4): string {
    Dec(ip.a) + ['.'] + (Dec(ip.b) + ['.'] + (Dec(ip.c) + ['.'] + Dec(ip.d)))
  }

  /** One octet: one to three digits, no leading zero, at most 255. */
  function ParseOctet(s: string): Option<byte> {
    if 1 <= |s| <= 3 && AllDigits(s) && (|s| > 1 ==> s[0] != '0') && Value(s) < 256 then Some(Value(s)) else None
  }

  /** `Ipv4Addr::from_str` */
  function ParseIp(s: string): Option<Ipv4> {
    var p := Split(s, '.');
    if |p| != 4 then None
    else
      match (ParseOctet(p[0]), ParseOctet(p[1]), ParseOctet(p[2]), ParseOctet(p[3]))
      case (Some(a), Some(b), Some(c), Some(d)) => Some(Ipv4(a, b, c, d))
      case _ => None
  }

  lemma OctetRoundTrip(n: byte)
    ensures ParseOctet(Dec(n)) == Some(n)
    ensures '.' !in Dec(n) && '/' !in Dec(n)
  {
    DecMeans(n);
  }

  lemma SplitDotted(a: string, b: string, c: string, d: string)
    requires '.' !in a && '.' !in b && '.' !in c && '.' !in d
    ensures Split(a + ['.'] + (b + ['.'] + (c + ['.'] + d)), '.') == [a, b, c, d]
  {
    SplitFirst(a, '.', b + ['.'] + (c + ['.'] + d));
    SplitFirst(b, '.', c + ['.'] + d);
    SplitFirst(c, '.', d);
    SplitNone(d, '.');
  }

  lemma IpRoundTrip(ip: Ipv4)
    ensures ParseIp(PrintIp(ip)) == Some(ip) && '/' !in PrintIp(ip)
  {
    OctetRoundTrip(ip.a);
    OctetRoundTrip(ip.b);
    OctetRoundTrip(ip.c);
    OctetRoundTrip(ip.d);
    SplitDotted(Dec(ip.a), Dec(ip.b), Dec(ip.c), Dec(ip.d));
  }

  lemma JoinFour(a: string, b: string, c: string, d: string, ch: char)
    ensures Join([a, b, c, d], ch) == a + [ch] + (b + [ch] + (c + [ch] + d))
  {
    JoinCons(c, [d], ch);
    JoinCons(b, [c, d], ch);
    JoinCons(a, [b, c, d], ch);
    assert [c] + [d] == [c, d] && [b] + [c, d] == [b, c, d] && [a] + [b, c, d] == [a, b, c, d];
  }

  /** A string is accepted as an address if and only if it is how that address is printed. */
  lemma ParseIpExact(s: string, ip: Ipv4)
    ensures ParseIp(s) == Some(ip) <==> s == PrintIp(ip)
  {
    IpRoundTrip(ip);
    if ParseIp(s) == Some(ip) {
      var p := Split(s, '.');
      JoinSplit(s, '.');
      JoinFour(p[0], p[1], p[2], p[3], '.');
      assert p == [p[0], p[1], p[2], p[3]];
      DecOfValue(p[0]);
      DecOfValue(p[1]);
      DecOfValue(p[2]);
      DecOfValue(p[3]);
    }
  }

  // ------------------------------------------------------------------- CIDR strings

  /** `get_ipv4` prints the address and the prefix byte of the message. */
  function PrintCidr(ip: Ipv4, prefix: byte): string {
    PrintIp(ip) + ['/'] + Dec(prefix)
  }

  /** `configure_guest_network`: address text and prefix, 24 where none can be read. */
  function SplitCidr(s: string): (string, u32) {
    var parts := Split(s, '/');
    (parts[0],
     if |parts| < 2 then 24
     else
       match ParseU32(parts[1])
       case Some(p) => p
       case None => 24)
  }

  lemma CidrParts(ip: Ipv4, prefix: byte)
    ensures Split(PrintCidr(ip, prefix), '/') == [PrintIp(ip), Dec(prefix)]
    ensures ParseIp(PrintIp(ip)) == Some(ip) && ParseU32(Dec(prefix)) == Some(prefix)
  {
    IpRoundTrip(ip);
    OctetRoundTrip(prefix);
    DecMeans(prefix);
    SplitFirst(PrintIp(ip), '/', Dec(prefix));
    SplitNone(Dec(prefix), '/');
  }

  /** Splitting what was printed recovers the address and the prefix. */
  lemma CidrRoundTrip(ip: Ipv4, prefix: byte)
    ensures var (address, p) := SplitCidr(PrintCidr(ip, prefix));
            ParseIp(address) == Some(ip) && p == prefix
  {
    CidrParts(ip, prefix);
  }

  // ----------------------------------------------------------------- bit arithmetic

  function Pow2(k: nat): (p: nat)
    ensures p >= 1
  {
    if k == 0 then 1 else 2 * Pow2(k - 1)
  }

  lemma Pow32()
    ensures Pow2(32) == 0x1_0000_0000
  {
    assert Pow2(8) == 256;
    assert Pow2(16) == 65536;
    assert Pow2(24) == 16777216;
  }

  /** `x & y` */
  function And(x: nat, y: nat): nat {
    if x == 0 || y == 0 then 0 else 2 * And(x / 2, y / 2) + (if x % 2 == 1 && y % 2 == 1 then 1 else 0)
  }

  /** `!x` on 32 bits */
  function Not(x: u32): u32 {
    0xFFFF_FFFF - x
  }

  lemma HalfMod(x: nat, h: nat)
    requires h >= 1
    ensures x % (2 * h) == 2 * (x / 2 % h) + x % 2 && x / (2 * h) == x / 2 / h
  {
    var q, r := x / 2 / h, x / 2 % h;
    assert x / 2 == q * h + r;
    assert x == q * (2 * h) + (2 * r + x % 2);
    ModIs(x, q, 2 * h, 2 * r + x % 2);
  }

  lemma {:induction false} AndAll(x: nat, n: nat)
    requires x < Pow2(n)
    ensures And(x, Pow2(n) - 1) == x
    decreases n
  {
    if n > 0 {
      AndAll(x / 2, n - 1);
      AndStep(x, Pow2(n - 1) - 1, 1);
    }
  }

  /** Masking off `k` low bits is subtracting the remainder. */
  lemma {:induction false} AndMask(x: nat, k: nat, n: nat)
    requires k <= n && x < Pow2(n)
    ensures Pow2(n) >= Pow2(k)
    ensures And(x, Pow2(n) - Pow2(k)) == x - x % Pow2(k)
    decreases n
  {
    if k == n {
      PowMonotone(k, n);
      ModIs(x, 0, Pow2(k), x);
    } else if k == 0 {
      AndAll(x, n);
    } else {
      AndMask(x / 2, k - 1, n - 1);
      AndStep(x, Pow2(n - 1) - Pow2(k - 1), 0);
      HalfMod(x, Pow2(k - 1));
    }
  }

  lemma {:induction false} PowMonotone(k: nat, n: nat)
    requires k <= n
    ensures Pow2(k) <= Pow2(n)
    decreases n - k
  {
    if k < n {
      PowMonotone(k, n - 1);
    }
  }

  lemma AndStep(x: nat, half: nat, bit: nat)
    requires bit < 2
    ensures And(x, 2 * half + bit) == 2 * And(x / 2, half) + (if x % 2 == 1 && bit == 1 then 1 else 0)
  {
    assert (2 * half + bit) / 2 == half && (2 * half + bit) % 2 == bit;
  }

  // ------------------------------------------------------------------------- gateway

  /** `Panics` is an arithmetic overflow in a build that checks for it. */
  datatype Gateway<+T> = Inferred(address: T) | NoGateway | Panics

  /** `!((1 << (32 - prefix)) - 1)`; in a build without overflow checks the shift count is taken
      modulo 32. */
  function Mask(prefix: nat): u32
    requires prefix <= 30
  {
    MaskFits((32 - prefix) % 32);
    Not(Pow2((32 - prefix) % 32) - 1)
  }

  lemma MaskFits(k: nat)
    requires k < 32
    ensures Pow2(k) <= Pow2(32) == 0x1_0000_0000
  {
    Pow32();
    PowMonotone(k, 32);
  }

  /** The arithmetic of `infer_gateway`; without overflow checks the addition wraps. */
  function GatewayOf(ip: u32, prefix: u32, checked: bool): Gateway<u32> {
    if prefix > 30 then NoGateway
    else if checked && prefix == 0 then Panics
    else
      var network := And(ip, Mask(prefix));
      if checked && network + 1 >= 0x1_0000_0000 then Panics
      else Inferred((network + 1) % 0x1_0000_0000)
  }

  /** `infer_gateway` */
  function InferGateway(s: string, checked: bool): Gateway<string> {
    var parts := Split(s, '/');
    match ParseIp(parts[0])
    case None => NoGateway
    case Some(ip) =>
      if |parts| < 2 then NoGateway
      else
        match ParseU32(parts[1])
        case None => NoGateway
        case Some(prefix) =>
          match GatewayOf(ToU32(ip), prefix, checked)
          case Inferred(g) => Inferred(PrintIp(FromU32(g)))
          case NoGateway => NoGateway
          case Panics => Panics
  }

  /** Size of the subnet. */
  function Hosts(prefix: nat): (h: nat)
    requires prefix <= 32
    ensures h >= 1
  {
    Pow2(32 - prefix)
  }

  lemma HostsBounds(prefix: nat)
    requires 1 <= prefix <= 30
    ensures 4 <= Hosts(prefix) <= 0x1_0000_0000
  {
    PowMonotone(2, 32 - prefix);
    PowMonotone(32 - prefix, 32);
    Pow32();
    assert Pow2(2) == 4;
  }

  function NetworkAddress(x: nat, h: nat): (n: nat)
    requires h >= 1
  {
    x - x % h
  }

  /** The block of size 2^k around a number below 2^n ends below 2^n. */
  lemma {:induction false} Covers(x: nat, k: nat, n: nat)
    requires k <= n && x < Pow2(n)
    ensures NetworkAddress(x, Pow2(k)) + Pow2(k) <= Pow2(n)
    decreases k
  {
    if k > 0 {
      Covers(x / 2, k - 1, n - 1);
      HalfMod(x, Pow2(k - 1));
    }
  }

  lemma MaskIs(prefix: nat)
    requires 1 <= prefix <= 30
    ensures Mask(prefix) == Pow2(32) - Hosts(prefix)
  {
    Pow32();
    assert (32 - prefix) % 32 == 32 - prefix;
    MaskFits(32 - prefix);
  }

  lemma Masked(x: u32, prefix: nat)
    requires 1 <= prefix <= 30
    ensures And(x, Mask(prefix)) == NetworkAddress(x, Hosts(prefix))
  {
    Pow32();
    MaskIs(prefix);
    AndMask(x, 32 - prefix, 32);
  }

  lemma GatewayValue(x: u32, prefix: nat, checked: bool)
    requires 1 <= prefix <= 30
    ensures NetworkAddress(x, Hosts(prefix)) + Hosts(prefix) <= 0x1_0000_0000
    ensures NetworkAddress(x, Hosts(prefix)) + 1 < 0x1_0000_0000
    ensures GatewayOf(x, prefix, checked) == Inferred(NetworkAddress(x, Hosts(prefix)) + 1)
  {
    HostsBounds(prefix);
    Pow32();
    Masked(x, prefix);
    Covers(x, 32 - prefix, 32);
    FromMasked(x, prefix, checked, NetworkAddress(x, Hosts(prefix)));
  }

  lemma FromMasked(x: u32, prefix: nat, checked: bool, network: nat)
    requires 1 <= prefix <= 30 && And(x, Mask(prefix)) == network && network + 1 < 0x1_0000_0000
    ensures GatewayOf(x, prefix, checked) == Inferred(network + 1)
  {
  }

  lemma FirstHost(x: nat, h: nat)
    requires h >= 2
    ensures var g := NetworkAddress(x, h) + 1;
            g % h == 1 && g / h == x / h && (g == x <==> x % h == 1)
  {
    var g, q := NetworkAddress(x, h) + 1, x / h;
    assert x == q * h + x % h;
    ModIs(g, q, h, 1);
  }

  /** For prefixes 1 to 30, with or without overflow checks, the gateway is host number 1 of the
      subnet of the address, neither its network nor its broadcast address. */
  lemma GatewayInSubnet(x: u32, prefix: nat, checked: bool)
    requires 1 <= prefix <= 30
    ensures var h, r := Hosts(prefix), GatewayOf(x, prefix, checked);
            && r.Inferred?
            && r.address % h == 1
            && r.address / h == x / h
            && r.address != NetworkAddress(x, h)
            && r.address != NetworkAddress(x, h) + h - 1
            && (r.address == x <==> x % h == 1)
  {
    GatewayValue(x, prefix, checked);
    HostsBounds(prefix);
    FirstHost(x, Hosts(prefix));
  }

  lemma SameNetwork(x: nat, y: nat, h: nat)
    requires h >= 1
    ensures NetworkAddress(x, h) == NetworkAddress(y, h) <==> x / h == y / h
  {
    var p, q := x / h, y / h;
    assert x == p * h + x % h && y == q * h + y % h;
    assert p > q ==> p * h > q * h;
    assert q > p ==> q * h > p * h;
  }

  /** Two addresses get the same gateway if and only if they share their network bits. */
  lemma GatewayByNetwork(x: u32, y: u32, prefix: nat, checked: bool)
    requires 1 <= prefix <= 30
    ensures GatewayOf(x, prefix, checked) == GatewayOf(y, prefix, checked)
            <==> x / Hosts(prefix) == y / Hosts(prefix)
  {
    GatewayValue(x, prefix, checked);
    GatewayValue(y, prefix, checked);
    SameNetwork(x, y, Hosts(prefix));
  }

  /** With prefix 0 a checked build panics, and an unchecked one answers the next address instead
      of host number 1. */
  lemma PrefixZero(x: u32)
    ensures GatewayOf(x, 0, true) == Panics
    ensures GatewayOf(x, 0, false) == Inferred((x + 1) % 0x1_0000_0000)
  {
    Pow32();
    AndMask(x, 0, 32);
    assert Pow2(0) == 1;
  }

  /** Every prefix. */
  lemma GatewayExact(x: u32, prefix: u32, checked: bool)
    ensures var r := GatewayOf(x, prefix, checked);
            && (r == NoGateway <==> prefix > 30)
            && (r == Panics <==> checked && prefix == 0)
            && (r.Inferred? ==> (r.address % Hosts(prefix) == 1 <==> prefix >= 1 || x == 0))
  {
    if 1 <= prefix <= 30 {
      GatewayInSubnet(x, prefix, checked);
    } else if prefix == 0 {
      PrefixZero(x);
      Pow32();
      assert Hosts(0) == 0x1_0000_0000;
    }
  }

  /** On the string that was printed for an address, the answer is the address that `GatewayExact`
      and `GatewayInSubnet` describe, in a form that parses back to it. */
  lemma InferGatewayExact(ip: Ipv4, prefix: byte, checked: bool)
    ensures var s := InferGateway(PrintCidr(ip, prefix), checked);
            var r := GatewayOf(ToU32(ip), prefix, checked);
            && (s == NoGateway <==> r == NoGateway)
            && (s == Panics <==> r == Panics)
            && (r.Inferred? ==> s.Inferred? && ParseIp(s.address) == Some(FromU32(r.address)))
            && (r.Inferred? ==> ToU32(FromU32(r.address)) == r.address)
  {
    CidrParts(ip, prefix);
    var r := GatewayOf(ToU32(ip), prefix, checked);
    if r.Inferred? {
      IpRoundTrip(FromU32(r.address));
      U32RoundTrip(ip, r.address);
    }
  }

  // ------------------------------------------------------------------- octet by octet

  lemma OctetHosts()
    ensures Hosts(24) == 256 && Hosts(16) == 65536 && Hosts(8) == 16777216
  {
    assert Pow2(8) == 256;
    assert Pow2(16) == 65536;
    assert Pow2(24) == 16777216;
  }

  lemma NetworkOctets(ip: Ipv4)
    ensures ToU32(ip) - ToU32(ip) % 256 + 1 == ToU32(Ipv4(ip.a, ip.b, ip.c, 1))
    ensures ToU32(ip) - ToU32(ip) % 65536 + 1 == ToU32(Ipv4(ip.a, ip.b, 0, 1))
    ensures ToU32(ip) - ToU32(ip) % 16777216 + 1 == ToU32(Ipv4(ip.a, 0, 0, 1))
  {
    var x, a, b, c, d := ToU32(ip), ip.a as int, ip.b as int, ip.c as int, ip.d as int;
    ModIs(x, 65536 * a + 256 * b + c, 256, d);
    ModIs(x, 256 * a + b, 65536, 256 * c + d);
    ModIs(x, a, 16777216, 65536 * b + 256 * c + d);
  }

  /** In dotted form: on an octet boundary the gateway keeps the network's octets and ends in 1. */
  lemma GatewayDotted(ip: Ipv4, checked: bool)
    ensures InferGateway(PrintCidr(ip, 24), checked) == Inferred(PrintIp(Ipv4(ip.a, ip.b, ip.c, 1)))
    ensures InferGateway(PrintCidr(ip, 16), checked) == Inferred(PrintIp(Ipv4(ip.a, ip.b, 0, 1)))
    ensures InferGateway(PrintCidr(ip, 8), checked) == Inferred(PrintIp(Ipv4(ip.a, 0, 0, 1)))
  {
    OctetHosts();
    NetworkOctets(ip);
    DottedAt(ip, 24, 256, checked, Ipv4(ip.a, ip.b, ip.c, 1));
    DottedAt(ip, 16, 65536, checked, Ipv4(ip.a, ip.b, 0, 1));
    DottedAt(ip, 8, 16777216, checked, Ipv4(ip.a, 0, 0, 1));
  }

  lemma DottedAt(ip: Ipv4, prefix: byte, hosts: nat, checked: bool, g: Ipv4)
    requires 1 <= prefix <= 30 && Hosts(prefix) == hosts && ToU32(ip) - ToU32(ip) % hosts + 1 == ToU32(g)
    ensures InferGateway(PrintCidr(ip, prefix), checked) == Inferred(PrintIp(g))
  {
    CidrParts(ip, prefix);
    GatewayValue(ToU32(ip), prefix, checked);
    U32RoundTrip(g, ToU32(g));
  }

  lemma ExampleText()
    ensures PrintIp(Ipv4(10, 88, 0, 2)) == "10.88.0.2" && PrintIp(Ipv4(10, 88, 0, 1)) == "10.88.0.1" && Dec(16) == "16"
  {
    assert Dec(10) == "10" && Dec(88) == "88";
  }

  /** The example in the source: 10.88.0.2/16 gives 10.88.0.1. */
  lemma GatewayExample(s: string, checked: bool)
    requires s == "10.88.0.2/16"
    ensures InferGateway(s, checked) == Inferred("10.88.0.1")
  {
    var ip := Ipv4(10, 88, 0, 2);
    GatewayDotted(ip, checked);
    ExampleText();
    assert PrintCidr(ip, 16) == "10.88.0.2" + ['/'] + "16";
    assert s == "10.88.0.2" + ['/'] + "16";
  }

  /** A number is read back from its decimal form, with or without a plus sign, if and only if it fits 32
      bits; there must be a digit. */
  lemma U32TextRoundTrip(n: nat)
    ensures n < 0x1_0000_0000 ==> ParseU32(Dec(n)) == Some(n) && ParseU32("+" + Dec(n)) == Some(n)
    ensures n >= 0x1_0000_0000 ==> ParseU32(Dec(n)) == None && ParseU32("+" + Dec(n)) == None
    ensures ParseU32("") == None && ParseU32("+") == None
  {
    DecMeans(n);
    assert Dec(n)[0] != '+';
    assert ("+" + Dec(n))[1..] == Dec(n);
  }

  /** A CIDR without a readable prefix is taken as /24 for the guest and gives no gateway. */
  lemma NoPrefix(address: string, rest: string)
    requires '/' !in address
    ensures SplitCidr(address) == (address, 24)
    ensures ParseU32(Split(rest, '/')[0]).None? ==> SplitCidr(address + ['/'] + rest) == (address, 24)
    ensures ParseU32(Split(rest, '/')[0]).Some? ==>
              SplitCidr(address + ['/'] + rest) == (address, ParseU32(Split(rest, '/')[0]).value)
    ensures forall checked :: InferGateway(address, checked) == NoGateway
    ensures ParseU32(Split(rest, '/')[0]).None? ==> forall checked :: InferGateway(address + ['/'] + rest, checked) == NoGateway
  {
    SplitNone(address, '/');
    SplitFirst(address, '/', rest);
  }
}
