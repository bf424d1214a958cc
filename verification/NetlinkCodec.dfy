/** Netlink attributes on the wire (crates/common/src/netlink.rs), little-endian.

    An attribute is a 4-byte header (length, type), its payload, and zero padding to a multiple
    of four; the payload of a nested attribute is a list of attributes. */
module NetlinkCodec {
  import opened Basics

  // ------------------------------------------------------------ fixed-width integers

  /** `(x as u16).to_ne_bytes()`: the value is truncated to 16 bits. */
  function Le16(x: nat): (r: seq<byte>)
    ensures |r| == 2
  {
    [x % 256, x / 256 % 256]
  }

  function Le32(x: nat): (r: seq<byte>)
    ensures |r| == 4
  {
    [x % 256, x / 256 % 256, x / 256 / 256 % 256, x / 256 / 256 / 256 % 256]
  }

  function U16At(b: seq<byte>, o: nat): (x: nat)
    requires o + 2 <= |b|
    ensures x < 0x1_0000
  {
    b[o] as int + 256 * (b[o + 1] as int)
  }

  function U32At(b: seq<byte>, o: nat): (x: nat)
    requires o + 4 <= |b|
    ensures x < 0x1_0000_0000
  {
    b[o] as int + 256 * (b[o + 1] as int) + 65536 * (b[o + 2] as int) + 16777216 * (b[o + 3] as int)
  }

  function I32At(b: seq<byte>, o: nat): (x: int)
    requires o + 4 <= |b|
    ensures -0x8000_0000 <= x < 0x8000_0000
  {
    var u := U32At(b, o);
    if u < 0x8000_0000 then u else u - 0x1_0000_0000
  }

  lemma Le16Value(x: nat)
    ensures U16At(Le16(x), 0) == x % 0x1_0000
  {
    var a := x / 256;
    assert x == 256 * a + x % 256;
    assert a == 256 * (a / 256) + a % 256;
    ModIs(x, a / 256, 0x1_0000, U16At(Le16(x), 0));
  }

  lemma Le32Value(x: nat)
    ensures U32At(Le32(x), 0) == x % 0x1_0000_0000
  {
    var a := x / 256;
    var b := a / 256;
    var c := b / 256;
    assert x == 256 * a + x % 256;
    assert a == 256 * b + a % 256;
    assert b == 256 * c + b % 256;
    assert c == 256 * (c / 256) + c % 256;
    ModIs(x, c / 256, 0x1_0000_0000, U32At(Le32(x), 0));
  }

  /** Little-endian: the low byte comes first, in writing and in reading; a header has the length before
      the type. */
  lemma ByteOrder(b: seq<byte>)
    requires b == [0x78, 0x56, 0x34, 0x12]
    ensures Le16(0x5678) == b[..2] && Le32(0x12345678) == b
    ensures U16At(b, 0) == 0x5678 && U16At(b, 2) == 0x1234 && U32At(b, 0) == 0x12345678
    ensures Header(0x1234, 0x5678) == b
  {
    assert Le16(0x5678) == [0x78, 0x56] && Le16(0x1234) == [0x34, 0x12];
  }

  // ---------------------------------------------------------------------- attributes

  /** `(n + 3) & !3` */
  function Align(n: nat): (r: nat)
    ensures n <= r < n + 4 && r % 4 == 0
  {
    (n + 3) / 4 * 4
  }

  lemma AlignedSum(m: nat, n: nat)
    requires m % 4 == 0 && n % 4 == 0
    ensures (m + n) % 4 == 0
  {
  }

  lemma AlignAligned(n: nat)
    requires n % 4 == 0
    ensures Align(n) == n
  {
  }

  function Zeros(n: nat): (z: seq<byte>)
    ensures |z| == n && forall i :: 0 <= i < n ==> z[i] == 0
  {
    seq(n, _ => 0)
  }

  function Padding(n: nat): (z: seq<byte>)
    ensures |z| == Align(n) - n
  {
    Zeros(Align(n) - n)
  }

  function Header(ty: nat, len: nat): (h: seq<byte>)
    ensures |h| == 4
  {
    Le16(len) + Le16(ty)
  }

  /** What the parsers see: a type and a payload. */
  datatype Nla = Nla(ty: nat, payload: seq<byte>)

  function EncodeNla(a: Nla): (r: seq<byte>)
    ensures |r| % 4 == 0 && |r| == Align(4 + |a.payload|)
  {
    Header(a.ty, 4 + |a.payload|) + a.payload + Padding(4 + |a.payload|)
  }

  function EncodeNlas(l: seq<Nla>): (r: seq<byte>)
    ensures |r| % 4 == 0
  {
    if l == [] then []
    else
      var first, rest := EncodeNla(l[0]), EncodeNlas(l[1..]);
      AlignedSum(|first|, |rest|);
      first + rest
  }

  /** Fits the 16-bit length and type fields. */
  predicate Fits(a: Nla) {
    a.ty < 0x1_0000 && 4 + |a.payload| < 0x1_0000
  }

  /** The walk of the parsing loops over arbitrary bytes: it stops at a short, lying or missing header. */
  function Walk(data: seq<byte>): (l: seq<Nla>)
    ensures forall i :: 0 <= i < |l| ==> Fits(l[i])
    decreases |data|
  {
    if |data| < 4 then []
    else
      var len := U16At(data, 0);
      if len < 4 || len > |data| then []
      else
        [Nla(U16At(data, 2), data[4..len])] + Walk(if Align(len) <= |data| then data[Align(len)..] else [])
  }

  lemma HeaderFields(ty: nat, len: nat, rest: seq<byte>)
    ensures U16At(Header(ty, len) + rest, 0) == len % 0x1_0000
    ensures U16At(Header(ty, len) + rest, 2) == ty % 0x1_0000
  {
    Le16Value(len);
    Le16Value(ty);
  }

  lemma Pieces(h: seq<byte>, p: seq<byte>, pad: seq<byte>, rest: seq<byte>)
    requires |h| == 4
    ensures var data := h + p + pad + rest;
            && data[..4] == h && data[4..4 + |p|] == p && data[4 + |p| + |pad|..] == rest
  {
  }

  /** One turn of the walk, for any bytes whose header announces `a`. */
  lemma WalkTurn(h: seq<byte>, a: Nla, pad: seq<byte>, rest: seq<byte>)
    requires |h| == 4 && U16At(h, 0) == 4 + |a.payload| && U16At(h, 2) == a.ty
    requires 4 + |a.payload| + |pad| == Align(4 + |a.payload|)
    ensures Walk(h + a.payload + pad + rest) == [a] + Walk(rest)
  {
    var data := h + a.payload + pad + rest;
    Pieces(h, a.payload, pad, rest);
    HeaderOf(data, h);
    WalkAnnounced(data, a, rest);
  }

  lemma HeaderOf(data: seq<byte>, h: seq<byte>)
    requires |h| == 4 <= |data| && data[..4] == h
    ensures U16At(data, 0) == U16At(h, 0) && U16At(data, 2) == U16At(h, 2)
  {
    assert forall i :: 0 <= i < 4 ==> data[i] == data[..4][i];
  }

  lemma WalkAnnounced(data: seq<byte>, a: Nla, rest: seq<byte>)
    requires 4 + |a.payload| <= Align(4 + |a.payload|) <= |data|
    requires U16At(data, 0) == 4 + |a.payload| && U16At(data, 2) == a.ty
    requires data[4..4 + |a.payload|] == a.payload && data[Align(4 + |a.payload|)..] == rest
    ensures Walk(data) == [a] + Walk(rest)
  {
  }

  lemma WalkHead(a: Nla, rest: seq<byte>)
    requires Fits(a)
    ensures Walk(EncodeNla(a) + rest) == [a] + Walk(rest)
  {
    var h := Header(a.ty, 4 + |a.payload|);
    HeaderFields(a.ty, 4 + |a.payload|, []);
    assert h + [] == h;
    WalkTurn(h, a, Padding(4 + |a.payload|), rest);
  }

  /** The walk visits exactly the attributes that were laid out, in order. */
  lemma {:induction false} WalkRoundTrip(l: seq<Nla>)
    requires forall a :: a in l ==> Fits(a)
    ensures Walk(EncodeNlas(l)) == l
  {
    if l != [] {
      WalkHead(l[0], EncodeNlas(l[1..]));
      WalkRoundTrip(l[1..]);
    }
  }

  /** Only attributes that fit survive: a list is recovered if and only if each of its members fits. */
  lemma WalkRoundTripExact(l: seq<Nla>)
    ensures Walk(EncodeNlas(l)) == l <==> forall a :: a in l ==> Fits(a)
  {
    if forall a :: a in l ==> Fits(a) {
      WalkRoundTrip(l);
    }
  }

  // ---------------------------------------------------------------- attribute trees

  datatype Attr = Leaf(ty: nat, payload: seq<byte>) | Nest(ty: nat, kids: seq<Attr>)

  function Flat(a: Attr): (f: Nla)
    ensures f.ty == a.ty
    decreases a, 1
  {
    match a
    case Leaf(ty, payload) => Nla(ty, payload)
    case Nest(ty, kids) => Nla(ty, EncodeAll(kids))
  }

  function Encode(a: Attr): (r: seq<byte>)
    ensures |r| % 4 == 0
    decreases a, 2
  {
    EncodeNla(Flat(a))
  }

  function EncodeAll(attrs: seq<Attr>): (r: seq<byte>)
    ensures |r| % 4 == 0
    decreases attrs, 0
  {
    if attrs == [] then []
    else
      var first, rest := Encode(attrs[0]), EncodeAll(attrs[1..]);
      AlignedSum(|first|, |rest|);
      first + rest
  }

  /** `data` reads as the tree `attrs`: the walk visits the same types, leaves carry the same
      payloads, and the payload of each nested attribute reads as its children. */
  ghost predicate ReadsAs(data: seq<byte>, attrs: seq<Attr>)
    decreases attrs
  {
    var l := Walk(data);
    && |l| == |attrs|
    && (forall i :: 0 <= i < |attrs| ==>
          && l[i].ty == attrs[i].ty
          && match attrs[i]
             case Leaf(_, payload) => l[i].payload == payload
             case Nest(_, kids) => ReadsAs(l[i].payload, kids))
  }

  ghost predicate AllFit(attrs: seq<Attr>)
    decreases attrs
  {
    forall i :: 0 <= i < |attrs| ==> Fits(Flat(attrs[i])) && (attrs[i].Nest? ==> AllFit(attrs[i].kids))
  }

  function FlatAll(attrs: seq<Attr>): (l: seq<Nla>)
    ensures |l| == |attrs| && forall i :: 0 <= i < |l| ==> l[i] == Flat(attrs[i])
  {
    seq(|attrs|, i requires 0 <= i < |attrs| => Flat(attrs[i]))
  }

  lemma {:induction false} EncodeAllFlat(attrs: seq<Attr>)
    ensures EncodeAll(attrs) == EncodeNlas(FlatAll(attrs))
  {
    if attrs != [] {
      EncodeAllFlat(attrs[1..]);
      assert FlatAll(attrs)[1..] == FlatAll(attrs[1..]);
    }
  }

  /** An encoded tree reads back as itself. */
  lemma {:induction false} TreeRoundTrip(attrs: seq<Attr>)
    requires AllFit(attrs)
    ensures ReadsAs(EncodeAll(attrs), attrs)
    decreases attrs
  {
    EncodeAllFlat(attrs);
    WalkRoundTrip(FlatAll(attrs));
    forall i | 0 <= i < |attrs| && attrs[i].Nest? ensures ReadsAs(Flat(attrs[i]).payload, attrs[i].kids) {
      TreeRoundTrip(attrs[i].kids);
    }
  }

  /** A nested attribute has no padding, and its length field is its extent if and only if the
      extent fits 16 bits. */
  lemma LengthIsExtent(a: Attr)
    requires a.Nest?
    ensures |Encode(a)| == 4 + |EncodeAll(a.kids)|
    ensures U16At(Encode(a), 0) == |Encode(a)| <==> |Encode(a)| < 0x1_0000
  {
    var n := 4 + |EncodeAll(a.kids)|;
    AlignedSum(4, |EncodeAll(a.kids)|);
    AlignAligned(n);
    assert Encode(a) == Header(a.ty, n) + (EncodeAll(a.kids) + Padding(n));
    HeaderFields(a.ty, n, EncodeAll(a.kids) + Padding(n));
  }
}
