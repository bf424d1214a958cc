/** The parsing loops of crates/common/src/netlink.rs over arbitrary bytes. */
module NetlinkParse {
  import opened Basics
  import opened NetlinkCodec

  /** The attributes that a parsing loop still visits from an offset, which may lie past the end. */
  function WalkFrom(data: seq<byte>, off: nat): seq<Nla>
    decreases |data| - off
  {
    if off + 4 > |data| then []
    else
      var len, ty := U16At(data, off), U16At(data, off + 2);
      if len < 4 || off + len > |data| then []
      else [Nla(ty, data[off + 4..off + len])] + WalkFrom(data, off + Align(len))
  }

  /** One turn of the walk over a suffix, by offset. */
  lemma WalkStep(data: seq<byte>, off: nat)
    requires off + 4 <= |data|
    ensures var len, ty := U16At(data, off), U16At(data, off + 2);
            Walk(data[off..]) ==
              if len < 4 || off + len > |data| then []
              else [Nla(ty, data[off + 4..off + len])]
                   + if off + Align(len) <= |data| then Walk(data[off + Align(len)..]) else []
  {
    var rest, len := data[off..], U16At(data, off);
    assert U16At(rest, 0) == len && U16At(rest, 2) == U16At(data, off + 2);
    if 4 <= len && off + len <= |data| {
      assert rest[4..len] == data[off + 4..off + len];
      if Align(len) <= |rest| {
        assert rest[Align(len)..] == data[off + Align(len)..];
      } else {
        assert Walk([]) == [];
      }
    }
  }

  /** Walking by offset is walking over what is left. */
  lemma {:induction false} WalkFromIs(data: seq<byte>, off: nat)
    requires off <= |data|
    ensures WalkFrom(data, off) == Walk(data[off..])
    decreases |data| - off
  {
    if off + 4 <= |data| {
      WalkStep(data, off);
      var len := U16At(data, off);
      if 4 <= len && off + len <= |data| {
        var next := off + Align(len);
        if next <= |data| {
          WalkFromIs(data, next);
        } else {
          assert WalkFrom(data, next) == [];
        }
      }
    }
  }

  /** The loops visit exactly the attributes of the walk. */
  lemma WalkWhole(data: seq<byte>)
    ensures WalkFrom(data, 0) == Walk(data)
  {
    WalkFromIs(data, 0);
    assert data[0..] == data;
  }

  // --------------------------------------------------------------- link attributes

  const IFLA_ADDRESS: nat := 1
  const IFLA_IFNAME: nat := 3

  /** `trim_end_matches('\0')` */
  function TrimNuls(s: seq<byte>): seq<byte> {
    if s == [] || s[|s| - 1] != 0 then s else TrimNuls(s[..|s| - 1])
  }

  lemma {:induction false} TrimNulsMeans(s: seq<byte>)
    ensures var r := TrimNuls(s);
            && r <= s && (r != [] ==> r[|r| - 1] != 0)
            && forall i :: |r| <= i < |s| ==> s[i] == 0
  {
    if s != [] && s[|s| - 1] == 0 {
      TrimNulsMeans(s[..|s| - 1]);
    }
  }

  predicate IsName(a: Nla) {
    a.ty == IFLA_IFNAME
  }

  predicate IsMac(a: Nla) {
    a.ty == IFLA_ADDRESS && |a.payload| == 6
  }

  /** Payload of the last attribute that satisfies `p`, or nothing. */
  function LastOf(l: seq<Nla>, p: Nla -> bool): Option<seq<byte>> {
    if l == [] then None
    else if p(l[|l| - 1]) then Some(l[|l| - 1].payload)
    else LastOf(l[..|l| - 1], p)
  }

  lemma {:induction false} LastOfMeans(l: seq<Nla>, p: Nla -> bool) returns (i: nat)
    ensures LastOf(l, p).None? ==> forall j :: 0 <= j < |l| ==> !p(l[j])
    ensures LastOf(l, p).Some? ==> i < |l| && p(l[i]) && LastOf(l, p).value == l[i].payload
                                   && forall j :: i < j < |l| ==> !p(l[j])
  {
    i := 0;
    if l != [] {
      if p(l[|l| - 1]) {
        i := |l| - 1;
      } else {
        i := LastOfMeans(l[..|l| - 1], p);
      }
    }
  }

  /** The last one, seen from the front. */
  lemma {:induction false} LastOfFront(l: seq<Nla>, p: Nla -> bool)
    requires l != []
    ensures LastOf(l, p) == if LastOf(l[1..], p).Some? then LastOf(l[1..], p)
                            else if p(l[0]) then Some(l[0].payload) else None
    decreases |l|
  {
    var n := |l| - 1;
    if n > 0 && !p(l[n]) {
      assert l[1..][..n - 1] == l[..n][1..];
      LastOfFront(l[..n], p);
    }
  }

  function NameOf(l: seq<Nla>): seq<byte> {
    match LastOf(l, IsName)
    case Some(p) => TrimNuls(p)
    case None => []
  }

  /** The six bytes of the hardware address; the source prints them in hexadecimal. */
  function MacOf(l: seq<Nla>): seq<byte> {
    match LastOf(l, IsMac)
    case Some(p) => p
    case None => []
  }

  function NameAfter(name: seq<byte>, a: Nla): seq<byte> {
    if IsName(a) then TrimNuls(a.payload) else name
  }

  function MacAfter(mac: seq<byte>, a: Nla): seq<byte> {
    if IsMac(a) then a.payload else mac
  }

  /** The name after the attributes in `l`, if it was `name` before. */
  function NameFold(name: seq<byte>, l: seq<Nla>): seq<byte>
    decreases |l|
  {
    if l == [] then name else NameFold(NameAfter(name, l[0]), l[1..])
  }

  function MacFold(mac: seq<byte>, l: seq<Nla>): seq<byte>
    decreases |l|
  {
    if l == [] then mac else MacFold(MacAfter(mac, l[0]), l[1..])
  }

  /** Overwriting as one goes leaves the last one. */
  lemma {:induction false} FoldsAreLast(l: seq<Nla>, name: seq<byte>, mac: seq<byte>)
    ensures NameFold(name, l) == if LastOf(l, IsName).Some? then TrimNuls(LastOf(l, IsName).value) else name
    ensures MacFold(mac, l) == if LastOf(l, IsMac).Some? then LastOf(l, IsMac).value else mac
    decreases |l|
  {
    if l != [] {
      LastOfFront(l, IsName);
      LastOfFront(l, IsMac);
      FoldsAreLast(l[1..], NameAfter(name, l[0]), MacAfter(mac, l[0]));
    }
  }

  /** Going on from `off` with these intermediate answers gives the same as the whole loop. */
  ghost predicate OnCourse(data: seq<byte>, off: nat, name: seq<byte>, mac: seq<byte>) {
    && NameFold(name, WalkFrom(data, off)) == NameFold([], WalkFrom(data, 0))
    && MacFold(mac, WalkFrom(data, off)) == MacFold([], WalkFrom(data, 0))
  }

  /** One turn of the loop takes one attribute into account. */
  lemma FoldTurn(data: seq<byte>, off: nat, name: seq<byte>, mac: seq<byte>, a: Nla)
    requires OnCourse(data, off, name, mac) && off + 4 <= |data|
    requires 4 <= U16At(data, off) && off + U16At(data, off) <= |data|
    requires a == Nla(U16At(data, off + 2), data[off + 4..off + U16At(data, off)])
    ensures OnCourse(data, off + Align(U16At(data, off)), NameAfter(name, a), MacAfter(mac, a))
  {
    var more := WalkFrom(data, off + Align(U16At(data, off)));
    assert WalkFrom(data, off) == [a] + more;
    assert ([a] + more)[1..] == more;
  }

  /** Where the loop ends, the answers are the last name and address. */
  lemma FoldEnds(data: seq<byte>, off: nat, name: seq<byte>, mac: seq<byte>)
    requires OnCourse(data, off, name, mac)
    requires off + 4 > |data| || U16At(data, off) < 4 || off + U16At(data, off) > |data|
    ensures name == NameOf(WalkFrom(data, 0)) && mac == MacOf(WalkFrom(data, 0))
  {
    assert WalkFrom(data, off) == [];
    FoldsAreLast(WalkFrom(data, 0), [], []);
  }

  /** `parse_link_nlas`: the last name and the last six-byte address that the walk visits. */
  method ParseLinkNlas(data: seq<byte>) returns (name: seq<byte>, mac: seq<byte>)
    ensures name == NameOf(WalkFrom(data, 0)) && mac == MacOf(WalkFrom(data, 0))
  {
    name, mac := [], [];
    var off := 0;
    while off + 4 <= |data|
      invariant OnCourse(data, off, name, mac)
      decreases |data| - off
    {
      var len := U16At(data, off);
      var ty := U16At(data, off + 2);
      if len < 4 || off + len > |data| {
        break;
      }
      var a := Nla(ty, data[off + 4..off + len]);
      FoldTurn(data, off, name, mac, a);
      name, mac := NameAfter(name, a), MacAfter(mac, a);
      off := off + Align(len);
    }
    FoldEnds(data, off, name, mac);
  }

  /** On attributes laid out by the writer, the loops visit exactly those, so the parsers return the
      last name and address written, and the first address of a type. */
  lemma ParsesWhatWasWritten(l: seq<Nla>)
    requires forall a :: a in l ==> Fits(a)
    ensures WalkFrom(EncodeNlas(l), 0) == l
  {
    WalkRoundTrip(l);
    WalkWhole(EncodeNlas(l));
  }

  // ------------------------------------------------------------------- addresses

  predicate Carries(a: Nla, target: nat) {
    a.ty == target && |a.payload| >= 4
  }

  /** First four bytes of the first attribute of the wanted type that has them. */
  function FirstAddress(l: seq<Nla>, target: nat): Option<seq<byte>> {
    if l == [] then None
    else if Carries(l[0], target) then Some(l[0].payload[..4])
    else FirstAddress(l[1..], target)
  }

  lemma {:induction false} FirstAddressMeans(l: seq<Nla>, target: nat) returns (i: nat)
    ensures FirstAddress(l, target).None? ==> forall j :: 0 <= j < |l| ==> !Carries(l[j], target)
    ensures FirstAddress(l, target).Some? ==>
              i < |l| && Carries(l[i], target) && FirstAddress(l, target).value == l[i].payload[..4]
              && forall j :: 0 <= j < i ==> !Carries(l[j], target)
  {
    i := 0;
    if l != [] && !Carries(l[0], target) {
      var k := FirstAddressMeans(l[1..], target);
      i := k + 1;
      assert forall j :: 0 < j < |l| ==> l[j] == l[1..][j - 1];
    }
  }

  lemma FirstAddressCons(a: Nla, l: seq<Nla>, target: nat)
    ensures FirstAddress([a] + l, target) == if Carries(a, target) then Some(a.payload[..4]) else FirstAddress(l, target)
  {
    assert ([a] + l)[1..] == l;
  }

  /** What one turn of the search decides. */
  lemma AddressTurn(data: seq<byte>, off: nat, target: nat)
    requires off + 4 <= |data|
    ensures var len, ty := U16At(data, off), U16At(data, off + 2);
            FirstAddress(WalkFrom(data, off), target) ==
              if len < 4 || off + len > |data| then None
              else if ty == target && len >= 8 then Some(data[off + 4..off + 8])
              else FirstAddress(WalkFrom(data, off + Align(len)), target)
  {
    var len, ty := U16At(data, off), U16At(data, off + 2);
    if 4 <= len && off + len <= |data| {
      var p := data[off + 4..off + len];
      FirstAddressCons(Nla(ty, p), WalkFrom(data, off + Align(len)), target);
      if len >= 8 {
        assert data[off + 4..off + 8] == p[..4];
      }
    }
  }

  /** `find_ipv4_nla` */
  method FindIpv4Nla(data: seq<byte>, target: nat) returns (r: Option<seq<byte>>)
    ensures r == FirstAddress(WalkFrom(data, 0), target)
  {
    var off := 0;
    while off + 4 <= |data|
      invariant FirstAddress(WalkFrom(data, off), target) == FirstAddress(WalkFrom(data, 0), target)
      decreases |data| - off
    {
      var len := U16At(data, off);
      var ty := U16At(data, off + 2);
      AddressTurn(data, off, target);
      if len < 4 || off + len > |data| {
        break;
      }
      if ty == target && len >= 8 {
        return Some(data[off + 4..off + 8]);
      }
      off := off + Align(len);
    }
    return None;
  }

  /** In the numbers of the protocol: a name is attribute 3, a hardware address is attribute 1 with six
      bytes, and an address needs four. */
  lemma AttributeTypes(a: Nla, target: nat)
    ensures IsName(a) <==> a.ty == 3
    ensures IsMac(a) <==> a.ty == 1 && |a.payload| == 6
    ensures Carries(a, target) <==> a.ty == target && |a.payload| >= 4
  {
  }
}
