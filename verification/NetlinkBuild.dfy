/** The message builders of crates/common/src/netlink.rs: they append to a byte vector and patch
    lengths back into headers they reserved earlier. */
module NetlinkBuild {
  import opened Basics
  import opened NetlinkCodec

  /** `buf[at..at + |bytes|].copy_from_slice(bytes)` */
  function Patch(buf: seq<byte>, at: nat, bytes: seq<byte>): (r: seq<byte>)
    requires at + |bytes| <= |buf|
    ensures |r| == |buf|
  {
    buf[..at] + bytes + buf[at + |bytes|..]
  }

  /** `nlhdr`: length, type, flags and sequence number in the first 12 bytes. */
  function NlHdr(buf: seq<byte>, len: nat, ty: nat, flags: nat, seqNo: nat): (r: seq<byte>)
    requires |buf| >= 16
    ensures |r| == |buf|
  {
    Patch(Patch(Patch(Patch(buf, 0, Le32(len)), 4, Le16(ty)), 6, Le16(flags)), 8, Le32(seqNo))
  }

  lemma NlHdrIs(buf: seq<byte>, len: nat, ty: nat, flags: nat, seqNo: nat)
    requires |buf| >= 16
    ensures NlHdr(buf, len, ty, flags, seqNo) == Le32(len) + Le16(ty) + Le16(flags) + Le32(seqNo) + buf[12..]
  {
    var l, t, f, q := Le32(len), Le16(ty), Le16(flags), Le32(seqNo);
    PatchFour(buf, l, t, f, q);
  }

  lemma PatchAfter(done: seq<byte>, old4: seq<byte>, rest: seq<byte>, new4: seq<byte>)
    requires |old4| == |new4|
    ensures Patch(done + old4 + rest, |done|, new4) == done + new4 + rest
  {
  }

  lemma PatchFour(buf: seq<byte>, l: seq<byte>, t: seq<byte>, f: seq<byte>, q: seq<byte>)
    requires |buf| >= 16 && |l| == |q| == 4 && |t| == |f| == 2
    ensures Patch(Patch(Patch(Patch(buf, 0, l), 4, t), 6, f), 8, q) == l + t + f + q + buf[12..]
  {
    assert buf == [] + buf[..4] + buf[4..];
    PatchAfter([], buf[..4], buf[4..], l);
    assert [] + l + buf[4..] == l + buf[4..6] + buf[6..];
    PatchAfter(l, buf[4..6], buf[6..], t);
    assert l + t + buf[6..] == (l + t) + buf[6..8] + buf[8..];
    PatchAfter(l + t, buf[6..8], buf[8..], f);
    assert l + t + f + buf[8..] == (l + t + f) + buf[8..12] + buf[12..];
    PatchAfter(l + t + f, buf[8..12], buf[12..], q);
  }

  // ------------------------------------------------------------------ pieces

  lemma NextAligned(n: nat, m: nat)
    requires n <= m <= Align(n) && m % 4 == 0
    ensures m == Align(n)
  {
  }

  /** `while !buf.len().is_multiple_of(4) { buf.push(0) }` */
  method AlignBuffer(body: seq<byte>) returns (r: seq<byte>)
    ensures r == body + Zeros(Align(|body|) - |body|)
  {
    r := body;
    ghost var pad := 0;
    while |r| % 4 != 0
      invariant |r| == |body| + pad <= Align(|body|) && r == body + Zeros(pad)
      decreases Align(|body|) - |r|
    {
      assert Zeros(pad) + [0] == Zeros(pad + 1);
      Regroup(body, Zeros(pad), [0]);
      r := r + [0];
      pad := pad + 1;
    }
    NextAligned(|body|, |r|);
  }

  /** `push_nla_str`: header, string, terminator, and zeros until the whole buffer is aligned. */
  method PushNlaStr(buf: seq<byte>, ty: nat, s: seq<byte>) returns (r: seq<byte>)
    ensures r == buf + Header(ty, 4 + |s| + 1) + s + [0] + Zeros(Align(|buf| + 4 + |s| + 1) - (|buf| + 4 + |s| + 1))
    ensures |buf| % 4 == 0 ==> r == buf + Encode(Leaf(ty, s + [0]))
  {
    var len := 4 + |s| + 1;
    r := buf + Le16(len);
    r := r + Le16(ty);
    Regroup(buf, Le16(len), Le16(ty));
    r := r + s;
    r := r + [0];
    r := AlignBuffer(r);
    if |buf| % 4 == 0 {
      PaddedStr(buf, Header(ty, len), s);
    }
  }

  lemma Regroup(a: seq<byte>, b: seq<byte>, c: seq<byte>)
    ensures a + b + c == a + (b + c)
  {
  }

  /** On an aligned buffer, aligning the buffer pads the attribute. */
  lemma PaddedStr(buf: seq<byte>, h: seq<byte>, s: seq<byte>)
    requires |buf| % 4 == 0 && |h| == 4
    ensures var body := buf + h + s + [0];
            body + Zeros(Align(|body|) - |body|) == buf + (h + (s + [0]) + Padding(4 + |s + [0]|))
  {
    var body := buf + h + s + [0];
    assert Align(|body|) - |body| == Align(5 + |s|) - (5 + |s|);
  }

  /** Closing a header reserved at `start`: back-patch the length, then the type. */
  function Close(buf: seq<byte>, start: nat, ty: nat): (r: seq<byte>)
    requires start + 4 <= |buf|
    ensures |r| == |buf|
  {
    Patch(Patch(buf, start, Le16(|buf| - start)), start + 2, Le16(ty))
  }

  /** `ty | NLA_F_NESTED` on 16 bits. */
  function Nested(ty: nat): nat
    requires ty < 0x1_0000
  {
    if ty < 0x8000 then ty + 0x8000 else ty
  }

  lemma PatchTwo(pre: seq<byte>, slot: seq<byte>, body: seq<byte>, l: seq<byte>, t: seq<byte>)
    requires |slot| == 4 && |l| == |t| == 2
    ensures Patch(Patch(pre + slot + body, |pre|, l), |pre| + 2, t) == pre + (l + t) + body
  {
  }

  /** Whatever aligned attributes were appended after the reserved header, closing it turns them
      into the children of one nested attribute and touches nothing before it. */
  lemma CloseNests(pre: seq<byte>, kids: seq<Attr>, ty: nat)
    ensures Close(pre + Zeros(4) + EncodeAll(kids), |pre|, ty) == pre + Encode(Nest(ty, kids))
  {
    var body := EncodeAll(kids);
    PatchTwo(pre, Zeros(4), body, Le16(4 + |body|), Le16(ty));
    assert Encode(Nest(ty, kids)) == Header(ty, 4 + |body|) + body;
  }

  lemma CloseLeaf(pre: seq<byte>, payload: seq<byte>, ty: nat)
    requires |payload| % 4 == 0
    ensures Close(pre + Zeros(4) + payload, |pre|, ty) == pre + Encode(Leaf(ty, payload))
  {
    PatchTwo(pre, Zeros(4), payload, Le16(4 + |payload|), Le16(ty));
    assert Encode(Leaf(ty, payload)) == Header(ty, 4 + |payload|) + payload;
  }

  lemma EncodeOne(a: Attr)
    ensures EncodeAll([a]) == Encode(a)
  {
    assert EncodeAll([a][1..]) == [];
  }

  lemma EncodeTwo(a: Attr, b: Attr)
    ensures EncodeAll([a, b]) == Encode(a) + Encode(b)
  {
    EncodeOne(b);
    assert [a, b][1..] == [b];
  }

  // -------------------------------------------------------- the redirect filter

  const KIND_U32: seq<byte> := [117, 51, 50]                         // "u32"
  const KIND_MIRRED: seq<byte> := [109, 105, 114, 114, 101, 100]     // "mirred"

  /** tcmsg: unspecified family, interface, no handle, ingress parent, protocol ETH_P_ALL. */
  function TcMsg(src: nat): (r: seq<byte>)
    ensures |r| == 20
  {
    [0] + [0, 0, 0] + Le32(src) + Le32(0) + Le32(0xFFFF_0000) + Le32(0x0300)
  }

  /** tc_mirred: action TC_ACT_STOLEN, TCA_EGRESS_REDIR to the destination. */
  function MirredParms(dst: nat): (r: seq<byte>)
    ensures |r| == 28
  {
    Le32(0) + Le32(0) + Le32(4) + Le32(0) + Le32(0) + Le32(1) + Le32(dst)
  }

  /** tc_u32_sel with one key whose mask and value are zero: it matches every packet. */
  function MatchAll(): (r: seq<byte>)
    ensures |r| == 32
  {
    [1, 0, 1] + Zeros(13) + Zeros(16)
  }

  function ActionOptions(dst: nat): Attr {
    Nest(Nested(2), [Leaf(2, MirredParms(dst))])
  }

  function ActionEntry(dst: nat): Attr {
    Nest(1, [Leaf(1, KIND_MIRRED + [0]), ActionOptions(dst)])
  }

  function FilterOptions(dst: nat): Attr {
    Nest(2, [Nest(7, [ActionEntry(dst)]), Leaf(5, MatchAll())])
  }

  /** The attribute tree of the filter: kind u32, and options holding a mirred action that
      redirects to `dst` and a match-all selector. */
  function RedirectTree(dst: nat): seq<Attr> {
    [Leaf(1, KIND_U32 + [0]), FilterOptions(dst)]
  }

  method PushActionOptions(buf: seq<byte>, dst: nat) returns (b: seq<byte>)
    ensures b == buf + Encode(ActionOptions(dst))
  {
    b := buf;
    var ao := |b|;
    b := b + Zeros(4);
    ghost var mid := b;
    b := b + Le16(32);
    b := b + Le16(2);
    b := b + MirredParms(dst);
    PushedParms(mid, b, dst);
    CloseNests(buf, [Leaf(2, MirredParms(dst))], Nested(2));
    b := Close(b, ao, Nested(2));
  }

  method PushActionEntry(buf: seq<byte>, dst: nat) returns (b: seq<byte>)
    requires |buf| % 4 == 0
    ensures b == buf + Encode(ActionEntry(dst))
  {
    b := buf;
    var tab := |b|;
    b := b + Zeros(4);
    ghost var mid := b;
    AlignedSum(|buf|, 4);
    b := PushNlaStr(b, 1, KIND_MIRRED);
    b := PushActionOptions(b, dst);
    ghost var kind, options := Leaf(1, KIND_MIRRED + [0]), ActionOptions(dst);
    EncodeTwo(kind, options);
    Regroup(mid, Encode(kind), Encode(options));
    CloseNests(buf, [kind, options], 1);
    b := Close(b, tab, 1);
  }

  method PushAction(buf: seq<byte>, dst: nat) returns (b: seq<byte>)
    requires |buf| % 4 == 0
    ensures b == buf + Encode(Nest(7, [ActionEntry(dst)]))
  {
    b := buf;
    var act := |b|;
    b := b + Zeros(4);
    AlignedSum(|buf|, 4);
    b := PushActionEntry(b, dst);
    EncodeOne(ActionEntry(dst));
    CloseNests(buf, [ActionEntry(dst)], 7);
    b := Close(b, act, 7);
  }

  lemma PushedParms(mid: seq<byte>, b: seq<byte>, dst: nat)
    requires b == mid + Le16(32) + Le16(2) + MirredParms(dst)
    ensures b == mid + EncodeAll([Leaf(2, MirredParms(dst))])
  {
    EncodeOne(Leaf(2, MirredParms(dst)));
    Regroup(mid, Le16(32), Le16(2));
    Regroup(mid, Header(2, 32), MirredParms(dst));
    assert Padding(32) == [];
    assert Header(2, 32) + MirredParms(dst) + [] == Header(2, 32) + MirredParms(dst);
  }

  method PushOptions(buf: seq<byte>, dst: nat) returns (b: seq<byte>)
    requires |buf| % 4 == 0
    ensures b == buf + Encode(FilterOptions(dst))
  {
    b := buf;
    var opts := |b|;
    b := b + Zeros(4);
    b := PushAction(b, dst);
    var sel := |b|;
    ghost var pre := b;
    b := b + Zeros(4);
    b := b + ([1, 0, 1] + Zeros(13));
    b := b + Zeros(16);
    assert b == pre + Zeros(4) + MatchAll();
    CloseLeaf(pre, MatchAll(), 5);
    b := Close(b, sel, 5);
    EncodeTwo(Nest(7, [ActionEntry(dst)]), Leaf(5, MatchAll()));
    assert b == buf + Zeros(4) + EncodeAll([Nest(7, [ActionEntry(dst)]), Leaf(5, MatchAll())]);
    CloseNests(buf, [Nest(7, [ActionEntry(dst)]), Leaf(5, MatchAll())], 2);
    b := Close(b, opts, 2);
  }

  /** Reading one 32-bit field out of its surroundings. */
  lemma FieldAt(front: seq<byte>, x: nat, back: seq<byte>)
    ensures U32At(front + Le32(x) + back, |front|) == x % 0x1_0000_0000
  {
    var all := front + Le32(x) + back;
    assert forall i :: 0 <= i < 4 ==> all[|front| + i] == Le32(x)[i];
    Le32Value(x);
  }

  /** The fixed part: unspecified family, the interface, no handle, the ingress queue as parent, and all
      protocols in network byte order. */
  lemma TcFields(src: nat)
    ensures TcMsg(src)[0] == 0 && U32At(TcMsg(src), 4) == src % 0x1_0000_0000
    ensures U32At(TcMsg(src), 8) == 0 && U32At(TcMsg(src), 12) == 0xFFFF_0000 && U32At(TcMsg(src), 16) == 0x0300
  {
    var f, i, h, p, q := [0] + [0, 0, 0], Le32(src), Le32(0), Le32(0xFFFF_0000), Le32(0x0300);
    FieldAt(f, src, h + p + q);
    assert TcMsg(src) == f + i + (h + p + q);
    FieldAt(f + i, 0, p + q);
    assert TcMsg(src) == f + i + h + (p + q);
    FieldAt(f + i + h, 0xFFFF_0000, q);
    FieldAt(f + i + h + p, 0x0300, []);
    assert TcMsg(src) == f + i + h + p + q + [];
  }

  /** What the leaves of the tree say in the kernel's layout: steal the packet, redirect on egress,
      to the destination; and a selector with one key that masks everything out. */
  lemma RedirectFields(dst: nat)
    ensures U32At(MirredParms(dst), 8) == 4 && U32At(MirredParms(dst), 20) == 1
    ensures U32At(MirredParms(dst), 24) == dst % 0x1_0000_0000
    ensures MatchAll()[0] == 1 && MatchAll()[2] == 1 && U32At(MatchAll(), 16) == 0 == U32At(MatchAll(), 20)
  {
    var z := Le32(0);
    FieldAt(z + z, 4, z + z + Le32(1) + Le32(dst));
    assert MirredParms(dst) == z + z + Le32(4) + (z + z + Le32(1) + Le32(dst));
    FieldAt(z + z + Le32(4) + z + z, 1, Le32(dst));
    FieldAt(z + z + Le32(4) + z + z + Le32(1), dst, []);
    assert MirredParms(dst) == z + z + Le32(4) + z + z + Le32(1) + Le32(dst) + [];
  }

  /** The shape of the tree, with the attribute numbers of the kernel: kind "u32", options holding an
      action table with one "mirred" action and the selector. */
  lemma RedirectShape(dst: nat)
    ensures RedirectTree(dst) ==
            [Leaf(1, Text("u32") + [0]),
             Nest(2, [Nest(7, [Nest(1, [Leaf(1, Text("mirred") + [0]),
                                        Nest(0x8002, [Leaf(2, MirredParms(dst))])])]),
                      Leaf(5, MatchAll())])]
  {
    assert Text("u32") == KIND_U32;
    assert Text("mirred") == KIND_MIRRED;
  }

  /** The bytes of an ASCII string. */
  function Text(s: string): (t: seq<byte>)
    ensures |t| == |s|
  {
    seq(|s|, i requires 0 <= i < |s| => s[i] as int % 256)
  }

  /** The fields of the message header. */
  lemma HeaderLiterals(len: nat, ty: nat, flags: nat, seqNo: nat, rest: seq<byte>)
    ensures var b := Le32(len) + Le16(ty) + Le16(flags) + Le32(seqNo) + rest;
            && U32At(b, 0) == len % 0x1_0000_0000 && U16At(b, 4) == ty % 0x1_0000
            && U16At(b, 6) == flags % 0x1_0000 && U32At(b, 8) == seqNo % 0x1_0000_0000
  {
    var l, t, f, q := Le32(len), Le16(ty), Le16(flags), Le32(seqNo);
    FieldAt([], len, t + f + q + rest);
    assert l + t + f + q + rest == [] + l + (t + f + q + rest);
    FieldAt(l + t + f, seqNo, rest);
    ShortAt(l, ty, f + q + rest);
    assert l + t + f + q + rest == l + t + (f + q + rest);
    ShortAt(l + t, flags, q + rest);
    assert l + t + f + q + rest == l + t + f + (q + rest);
  }

  lemma ShortAt(front: seq<byte>, x: nat, back: seq<byte>)
    ensures U16At(front + Le16(x) + back, |front|) == x % 0x1_0000
  {
    var all := front + Le16(x) + back;
    assert forall i :: 0 <= i < 2 ==> all[|front| + i] == Le16(x)[i];
    Le16Value(x);
  }

  const NEW_TFILTER: nat := 44
  const CREATE_EXCL_ACK_REQUEST: nat := 0x605

  /** The finished message reads back: its length field is its length, and what follows the
      fixed headers is the filter's attribute tree. */
  lemma FinishedFilter(b: seq<byte>, h: seq<byte>, tc: seq<byte>, dst: nat)
    requires |h| == 16 && |tc| == 20 && b == h + tc + EncodeAll(RedirectTree(dst)) && h[..4] == Le32(|b|)
    ensures |b| == 140 && U32At(b, 0) == |b| && ReadsAs(b[36..], RedirectTree(dst))
  {
    FilterFits(dst);
    TreeRoundTrip(RedirectTree(dst));
    assert b[36..] == EncodeAll(RedirectTree(dst));
    Le32Value(|b|);
    assert b[..4] == Le32(|b|);
  }

  lemma FixedHeaders(pre: seq<byte>, tc: seq<byte>, tree: seq<byte>, front: seq<byte>)
    requires |pre| == 16 && |front| == 12
    ensures front + (pre + tc + tree)[12..] == front + pre[12..] + tc + tree
  {
  }

  /** `add_redirect_filter`, up to the bytes it sends. */
  method AddRedirectFilter(src: nat, dst: nat, seqNo: nat) returns (b: seq<byte>)
    ensures b == Le32(|b|) + Le16(NEW_TFILTER) + Le16(CREATE_EXCL_ACK_REQUEST) + Le32(seqNo) + Zeros(4)
                 + TcMsg(src) + EncodeAll(RedirectTree(dst))
    ensures |b| == 140 && U32At(b, 0) == |b|
    ensures ReadsAs(b[36..], RedirectTree(dst))
  {
    b := Zeros(16);
    b := b + TcMsg(src);
    ghost var fixed := b;
    b := PushNlaStr(b, 1, KIND_U32);
    AlignedSum(|fixed|, |Encode(Leaf(1, KIND_U32 + [0]))|);
    b := PushOptions(b, dst);
    EncodeTwo(Leaf(1, KIND_U32 + [0]), FilterOptions(dst));
    ghost var tree := EncodeAll(RedirectTree(dst));
    Regroup(fixed, Encode(Leaf(1, KIND_U32 + [0])), Encode(FilterOptions(dst)));
    var len := |b|;
    NlHdrIs(b, len, NEW_TFILTER, CREATE_EXCL_ACK_REQUEST, seqNo);
    ghost var front := Le32(len) + Le16(NEW_TFILTER) + Le16(CREATE_EXCL_ACK_REQUEST) + Le32(seqNo);
    FixedHeaders(Zeros(16), TcMsg(src), tree, front);
    assert Zeros(16)[12..] == Zeros(4);
    b := NlHdr(b, len, NEW_TFILTER, CREATE_EXCL_ACK_REQUEST, seqNo);
    FinishedFilter(b, front + Zeros(4), TcMsg(src), dst);
  }

  /** The header of the message: RTM_NEWTFILTER with request, acknowledge, create and exclusive flags. */
  lemma FilterHeader(b: seq<byte>, src: nat, dst: nat, seqNo: nat)
    requires b == Le32(|b|) + Le16(NEW_TFILTER) + Le16(CREATE_EXCL_ACK_REQUEST) + Le32(seqNo) + Zeros(4)
                  + TcMsg(src) + EncodeAll(RedirectTree(dst))
    ensures U16At(b, 4) == 44 && U16At(b, 6) == 0x605 && U32At(b, 8) == seqNo % 0x1_0000_0000
  {
    var front := Le32(|b|) + Le16(NEW_TFILTER) + Le16(CREATE_EXCL_ACK_REQUEST) + Le32(seqNo);
    var rest := Zeros(4) + TcMsg(src) + EncodeAll(RedirectTree(dst));
    Regroup(front, Zeros(4), TcMsg(src));
    Regroup(front, Zeros(4) + TcMsg(src), EncodeAll(RedirectTree(dst)));
    HeaderLiterals(|b|, NEW_TFILTER, CREATE_EXCL_ACK_REQUEST, seqNo, rest);
  }

  lemma LeafSize(ty: nat, payload: seq<byte>)
    ensures |Encode(Leaf(ty, payload))| == Align(4 + |payload|)
  {
  }

  lemma NestSize(ty: nat, kids: seq<Attr>)
    ensures |Encode(Nest(ty, kids))| == 4 + |EncodeAll(kids)|
  {
    LengthIsExtent(Nest(ty, kids));
  }

  lemma ActionSizes(dst: nat)
    ensures |EncodeAll([Leaf(2, MirredParms(dst))])| == 32
    ensures |EncodeAll([Leaf(1, KIND_MIRRED + [0]), ActionOptions(dst)])| == 48
    ensures |EncodeAll([ActionEntry(dst)])| == 52
  {
    EncodeOne(Leaf(2, MirredParms(dst)));
    LeafSize(2, MirredParms(dst));
    EncodeTwo(Leaf(1, KIND_MIRRED + [0]), ActionOptions(dst));
    LeafSize(1, KIND_MIRRED + [0]);
    NestSize(Nested(2), [Leaf(2, MirredParms(dst))]);
    EncodeOne(ActionEntry(dst));
    NestSize(1, [Leaf(1, KIND_MIRRED + [0]), ActionOptions(dst)]);
  }

  lemma FilterSizes(dst: nat)
    ensures |EncodeAll([Nest(7, [ActionEntry(dst)]), Leaf(5, MatchAll())])| == 92
    ensures |EncodeAll(RedirectTree(dst))| == 104
  {
    ActionSizes(dst);
    EncodeTwo(Nest(7, [ActionEntry(dst)]), Leaf(5, MatchAll()));
    NestSize(7, [ActionEntry(dst)]);
    LeafSize(5, MatchAll());
    EncodeTwo(Leaf(1, KIND_U32 + [0]), FilterOptions(dst));
    LeafSize(1, KIND_U32 + [0]);
    NestSize(2, [Nest(7, [ActionEntry(dst)]), Leaf(5, MatchAll())]);
  }

  lemma FilterFits(dst: nat)
    ensures AllFit(RedirectTree(dst)) && |EncodeAll(RedirectTree(dst))| == 104
  {
    ActionSizes(dst);
    FilterSizes(dst);
    assert AllFit([Leaf(2, MirredParms(dst))]);
    assert AllFit([Leaf(1, KIND_MIRRED + [0]), ActionOptions(dst)]);
    assert AllFit([ActionEntry(dst)]);
    assert AllFit([Nest(7, [ActionEntry(dst)]), Leaf(5, MatchAll())]);
  }
}
