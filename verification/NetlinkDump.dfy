/** The framing loop of `dump` (crates/common/src/netlink.rs): messages out of a stream of datagrams.

    Every datagram is received into the same fixed buffer, so bytes past its end are left over
    from earlier ones, and a datagram longer than the buffer is cut. */
module NetlinkDump {
  import opened Basics
  import opened NetlinkCodec

  const BUFFER: nat := 32768
  const NLMSG_ERROR: nat := 2
  const NLMSG_DONE: nat := 3

  /** How a dump ends. `Hangs` is an inner loop that never advances, `Crashed` an index out of
      bounds, `Waiting` a dump that has used up its datagrams and waits for the next, `RecvFailed`
      one whose next receive fails. */
  datatype Outcome =
    | Returned(msgs: seq<seq<byte>>)
    | Failed(code: int)
    | Crashed
    | Hangs
    | Waiting(msgs: seq<seq<byte>>)
    | RecvFailed

  function Min(a: nat, b: nat): nat {
    if a <= b then a else b
  }

  function Fill(r: seq<byte>, d: seq<byte>): (s: seq<byte>)
    ensures |s| == |r|
  {
    var n := Min(|d|, |r|);
    d[..n] + r[n..]
  }

  // ------------------------------------------------------------------ one datagram

  /** What one header makes the inner loop do. */
  datatype Turn = Stop(outcome: Outcome) | Next(off: nat, out: seq<seq<byte>>)

  function TurnAt(r: seq<byte>, n: nat, off: nat, out: seq<seq<byte>>): Turn
    requires off + 16 <= n <= |r|
  {
    var len, ty := U32At(r, off), U16At(r, off + 4);
    if ty == NLMSG_DONE then Stop(Returned(out))
    else if ty == NLMSG_ERROR && off + 20 > |r| then Stop(Crashed)
    else if ty == NLMSG_ERROR && I32At(r, off + 16) != 0 then Stop(Failed(I32At(r, off + 16)))
    else Next(off + Align(len), if 0 < len && off + len <= n then out + [r[off..off + len]] else out)
  }

  /** The inner loop. A turn that leaves the offset where it was is repeated for ever, see
      `StandstillRepeats`. */
  function Inner(r: seq<byte>, n: nat, off: nat, out: seq<seq<byte>>): (o: Outcome)
    requires n <= |r|
    decreases n - off
  {
    if off + 16 > n then Waiting(out)
    else
      match TurnAt(r, n, off, out)
      case Stop(o) => o
      case Next(off', out') => if off' == off then Hangs else Inner(r, n, off', out')
  }

  /** A turn that does not advance does not change anything else either. */
  lemma StandstillRepeats(r: seq<byte>, n: nat, off: nat, out: seq<seq<byte>>)
    requires off + 16 <= n <= |r|
    ensures TurnAt(r, n, off, out).Next? && TurnAt(r, n, off, out).off == off
            ==> TurnAt(r, n, off, out) == Next(off, out)
  {
  }

  /** The header at `off` lets the loop go on. */
  predicate Passes(r: seq<byte>, n: nat, off: nat)
    requires n <= |r|
  {
    off + 16 <= n && TurnAt(r, n, off, []).Next?
  }

  /** The inner loop that starts at `from` comes to stand at `to`. */
  predicate Visits(r: seq<byte>, n: nat, from: nat, to: nat)
    requires n <= |r|
    decreases n - from
  {
    || to == from
    || (Passes(r, n, from) && U32At(r, from) > 0 && Visits(r, n, from + Align(U32At(r, from)), to))
  }

  /** The header at `to` has length zero and lets the loop go on. */
  predicate StandsStill(r: seq<byte>, n: nat, to: nat)
    requires n <= |r|
  {
    Passes(r, n, to) && U32At(r, to) == 0
  }

  /** The header at `to` reports an error whose code would lie behind the buffer. */
  predicate CutError(r: seq<byte>, n: nat, to: nat)
    requires n <= |r|
  {
    to + 16 <= n && U16At(r, to + 4) == NLMSG_ERROR && to + 20 > |r|
  }

  lemma StopsHere(r: seq<byte>, n: nat, from: nat, out: seq<seq<byte>>)
    requires n <= |r| && !(Passes(r, n, from) && U32At(r, from) > 0)
    ensures Inner(r, n, from, out) == Hangs <==> StandsStill(r, n, from)
    ensures Inner(r, n, from, out) == Crashed <==> CutError(r, n, from)
    ensures Inner(r, n, from, out).Waiting? <==> from + 16 > n
  {
  }

  predicate GoesOn(r: seq<byte>, n: nat, from: nat)
    requires n <= |r|
  {
    Passes(r, n, from) && U32At(r, from) > 0
  }

  /** The loop ends at some header that it visits. */
  lemma {:induction false} LastVisit(r: seq<byte>, n: nat, from: nat) returns (to: nat)
    requires n <= |r|
    ensures Visits(r, n, from, to) && !GoesOn(r, n, to)
    decreases n - from
  {
    if GoesOn(r, n, from) {
      to := LastVisit(r, n, from + Align(U32At(r, from)));
    } else {
      to := from;
    }
  }

  lemma OneTurn(r: seq<byte>, n: nat, from: nat, out: seq<seq<byte>>, to: nat) returns (next: nat, more: seq<seq<byte>>)
    requires n <= |r| && Visits(r, n, from, to) && to != from
    ensures from < next && from < n && Visits(r, n, next, to) && Inner(r, n, from, out) == Inner(r, n, next, more)
  {
    var turn := TurnAt(r, n, from, out);
    next, more := turn.off, turn.out;
  }

  /** Where it ends decides how. */
  lemma {:induction false} EndDecides(r: seq<byte>, n: nat, from: nat, out: seq<seq<byte>>, to: nat)
    requires n <= |r| && Visits(r, n, from, to) && !GoesOn(r, n, to)
    ensures Inner(r, n, from, out) == Hangs <==> StandsStill(r, n, to)
    ensures Inner(r, n, from, out) == Crashed <==> CutError(r, n, to)
    ensures Inner(r, n, from, out).Waiting? <==> to + 16 > n
    decreases n - from
  {
    if to == from {
      StopsHere(r, n, from, out);
    } else {
      var next, more := OneTurn(r, n, from, out, to);
      EndDecides(r, n, next, more, to);
    }
  }

  /** On arbitrary bytes, the inner loop hangs if and only if it visits a header of length zero
      that neither ends the dump nor carries an error. */
  lemma HangsAtZeroLength(r: seq<byte>, n: nat, from: nat, out: seq<seq<byte>>)
    requires n <= |r|
    ensures Inner(r, n, from, out) == Hangs <==> exists to :: Visits(r, n, from, to) && StandsStill(r, n, to)
  {
    var last := LastVisit(r, n, from);
    EndDecides(r, n, from, out, last);
    forall to | Visits(r, n, from, to) && StandsStill(r, n, to) ensures Inner(r, n, from, out) == Hangs {
      EndDecides(r, n, from, out, to);
    }
  }

  /** On arbitrary bytes, the inner loop indexes out of bounds if and only if it visits an error header
      in the last bytes of the buffer. */
  lemma CrashesAtCutError(r: seq<byte>, n: nat, from: nat, out: seq<seq<byte>>)
    requires n <= |r|
    ensures Inner(r, n, from, out) == Crashed <==> exists to :: Visits(r, n, from, to) && CutError(r, n, to)
  {
    var last := LastVisit(r, n, from);
    EndDecides(r, n, from, out, last);
    forall to | Visits(r, n, from, to) && CutError(r, n, to) ensures Inner(r, n, from, out) == Crashed {
      assert !GoesOn(r, n, to);
      EndDecides(r, n, from, out, to);
    }
  }

  // ---------------------------------------------------------------- many datagrams

  function Dumped(r: seq<byte>, datagrams: seq<seq<byte>>, out: seq<seq<byte>>): (o: Outcome)
    decreases |datagrams|
  {
    if datagrams == [] then Waiting(out)
    else
      var r' := Fill(r, datagrams[0]);
      var o := Inner(r', Min(|datagrams[0]|, |r|), 0, out);
      if o.Waiting? then Dumped(r', datagrams[1..], o.msgs) else o
  }

  /** A failing receive loses what was collected. */
  function WithRecv(o: Outcome, broken: bool): Outcome {
    if o.Waiting? && broken then RecvFailed else o
  }

  method Receive(r: array<byte>, d: seq<byte>) returns (n: nat)
    modifies r
    ensures n == Min(|d|, r.Length) && r[..] == Fill(old(r[..]), d)
  {
    n := Min(|d|, r.Length);
    for i := 0 to n
      invariant r[..] == d[..i] + old(r[..])[i..]
    {
      r[i] := d[i];
    }
  }

  /** The body of the inner loop. */
  method TakeTurn(r: seq<byte>, n: nat, off: nat, before: seq<seq<byte>>) returns (t: Turn)
    requires off + 16 <= n <= |r|
    ensures t == TurnAt(r, n, off, before)
  {
    var len := U32At(r, off);
    var ty := U16At(r, off + 4);
    if ty == NLMSG_DONE {
      return Stop(Returned(before));
    }
    if ty == NLMSG_ERROR {
      if off + 20 > |r| {
        return Stop(Crashed);
      }
      var e := I32At(r, off + 16);
      if e != 0 {
        return Stop(Failed(e));
      }
    }
    var out := before;
    if len > 0 && off + len <= n {
      out := out + [r[off..off + len]];
    }
    return Next(off + Align(len), out);
  }

  /** The inner loop over the `n` bytes just received. */
  method WalkDatagram(r: seq<byte>, n: nat, before: seq<seq<byte>>) returns (o: Outcome)
    requires n <= |r|
    ensures o == Inner(r, n, 0, before)
  {
    var out, off := before, 0;
    while off + 16 <= n
      invariant Inner(r, n, off, out) == Inner(r, n, 0, before)
      decreases n - off
    {
      var t := TakeTurn(r, n, off, out);
      if t.Stop? {
        return t.outcome;
      }
      if t.off == off {
        return Hangs;
      }
      off, out := t.off, t.out;
    }
    return Waiting(out);
  }

  /** `dump`, after the request is sent; `broken` says whether the receive after these datagrams fails. */
  method Dump(datagrams: seq<seq<byte>>, broken: bool) returns (o: Outcome)
    ensures o == WithRecv(Dumped(Zeros(BUFFER), datagrams, []), broken)
  {
    var out := [];
    var r := new byte[BUFFER](_ => 0);
    assert r[..] == Zeros(BUFFER);
    for i := 0 to |datagrams|
      invariant r.Length == BUFFER
      invariant Dumped(r[..], datagrams[i..], out) == Dumped(Zeros(BUFFER), datagrams, [])
    {
      assert datagrams[i..][1..] == datagrams[i + 1..];
      var n := Receive(r, datagrams[i]);
      o := WalkDatagram(r[..], n, out);
      if !o.Waiting? {
        return;
      }
      out := o.msgs;
    }
    if broken {
      return RecvFailed;
    }
    return Waiting(out);
  }

  // ----------------------------------------------------------------- whole messages

  /** A message whose header tells its length, with room for the code if it reports an error. */
  predicate Whole(m: seq<byte>) {
    16 <= |m| && U32At(m, 0) == |m| && (U16At(m, 4) == NLMSG_ERROR ==> 20 <= |m|)
  }

  /** The datagram holds exactly these messages at aligned offsets; any bytes may pad them, and the
      last one need not be padded. */
  predicate Lays(d: seq<byte>, ms: seq<seq<byte>>) {
    if ms == [] then d == []
    else ms[0] <= d && Whole(ms[0]) && Lays(d[Min(Align(|ms[0]|), |d|)..], ms[1..])
  }

  predicate IsDone(m: seq<byte>)
    requires Whole(m)
  {
    U16At(m, 4) == NLMSG_DONE
  }

  predicate IsError(m: seq<byte>)
    requires Whole(m)
  {
    U16At(m, 4) == NLMSG_ERROR && I32At(m, 16) != 0
  }

  predicate AllWhole(ms: seq<seq<byte>>) {
    forall i :: 0 <= i < |ms| ==> Whole(ms[i])
  }

  /** What a dump of these messages must give. */
  function Verdict(out: seq<seq<byte>>, ms: seq<seq<byte>>): (o: Outcome)
    requires AllWhole(ms)
    decreases |ms|
  {
    if ms == [] then Waiting(out)
    else if IsDone(ms[0]) then Returned(out)
    else if IsError(ms[0]) then Failed(I32At(ms[0], 16))
    else Verdict(out + [ms[0]], ms[1..])
  }

  predicate Ends(m: seq<byte>)
    requires Whole(m)
  {
    IsDone(m) || IsError(m)
  }

  /** The verdict in terms of the first message that ends the dump, if there is one. */
  lemma {:induction false} VerdictMeans(out: seq<seq<byte>>, ms: seq<seq<byte>>, k: nat)
    requires AllWhole(ms) && k <= |ms|
    requires forall i :: 0 <= i < k ==> !Ends(ms[i])
    requires k < |ms| ==> Ends(ms[k])
    ensures Verdict(out, ms) ==
              if k == |ms| then Waiting(out + ms)
              else if IsDone(ms[k]) then Returned(out + ms[..k])
              else Failed(I32At(ms[k], 16))
    decreases |ms|
  {
    if k > 0 {
      VerdictMeans(out + [ms[0]], ms[1..], k - 1);
      assert out + [ms[0]] + ms[1..] == out + ms;
      assert out + [ms[0]] + ms[1..][..k - 1] == out + ms[..k];
    } else {
      assert out + ms[..0] == out;
      if ms == [] { assert out + ms == out; }
    }
  }

  lemma {:induction false} VerdictSplits(out: seq<seq<byte>>, ms: seq<seq<byte>>, more: seq<seq<byte>>)
    requires AllWhole(ms) && AllWhole(more)
    ensures AllWhole(ms + more)
    ensures Verdict(out, ms + more) ==
              if Verdict(out, ms).Waiting? then Verdict(Verdict(out, ms).msgs, more) else Verdict(out, ms)
    decreases |ms|
  {
    if ms == [] {
      assert ms + more == more;
    } else {
      assert (ms + more)[1..] == ms[1..] + more;
      VerdictSplits(out + [ms[0]], ms[1..], more);
    }
  }

  /** Where a whole message lies, the inner loop takes it and goes on behind it, or ends with it. */
  lemma TurnReads(r: seq<byte>, n: nat, off: nat, out: seq<seq<byte>>, m: seq<byte>)
    requires Whole(m) && off + |m| <= n <= |r| && r[off..off + |m|] == m
    ensures TurnAt(r, n, off, out) ==
              if IsDone(m) then Stop(Returned(out))
              else if IsError(m) then Stop(Failed(I32At(m, 16)))
              else Next(off + Align(|m|), out + [m])
  {
    assert forall i :: 0 <= i < |m| ==> r[off + i] == m[i];
    assert U32At(r, off) == |m| && U16At(r, off + 4) == U16At(m, 4);
    assert 20 <= |m| ==> I32At(r, off + 16) == I32At(m, 16);
  }

  lemma {:induction false} LaysWhole(d: seq<byte>, ms: seq<seq<byte>>)
    requires Lays(d, ms)
    ensures AllWhole(ms)
    decreases |ms|
  {
    if ms != [] {
      LaysWhole(d[Min(Align(|ms[0]|), |d|)..], ms[1..]);
    }
  }

  /** The inner loop reads off whole messages one by one, whatever lies behind the datagram. */
  lemma {:induction false} InnerReads(r: seq<byte>, n: nat, off: nat, out: seq<seq<byte>>, ms: seq<seq<byte>>)
    requires off <= n <= |r| && Lays(r[off..n], ms) && AllWhole(ms)
    ensures Inner(r, n, off, out) == Verdict(out, ms)
    decreases |ms|
  {
    var d := r[off..n];
    if ms != [] {
      var m := ms[0];
      assert d[..|m|] == r[off..off + |m|] == m;
      TurnReads(r, n, off, out, m);
      if !Ends(m) {
        var next := off + Align(|m|);
        if next <= n {
          assert d[Align(|m|)..] == r[next..n];
          InnerReads(r, n, next, out + [m], ms[1..]);
        } else {
          assert d[|d|..] == [] && ms[1..] == [];
        }
      }
    }
  }

  function Concat(mss: seq<seq<seq<byte>>>): seq<seq<byte>> {
    if mss == [] then [] else mss[0] + Concat(mss[1..])
  }

  /** Datagram by datagram: each fits the buffer and holds these whole messages. */
  predicate Stream(datagrams: seq<seq<byte>>, mss: seq<seq<seq<byte>>>) {
    && |datagrams| == |mss|
    && forall i :: 0 <= i < |mss| ==> |datagrams[i]| <= BUFFER && Lays(datagrams[i], mss[i])
  }

  lemma {:induction false} StreamWhole(datagrams: seq<seq<byte>>, mss: seq<seq<seq<byte>>>)
    requires Stream(datagrams, mss)
    ensures AllWhole(Concat(mss))
    decreases |mss|
  {
    if mss != [] {
      LaysWhole(datagrams[0], mss[0]);
      StreamWhole(datagrams[1..], mss[1..]);
    }
  }

  /** Across datagrams the dump sees one sequence of messages: where the datagrams are cut, and
      what earlier ones left in the buffer, make no difference. */
  lemma {:induction false} DumpedReads(r: seq<byte>, datagrams: seq<seq<byte>>, out: seq<seq<byte>>, mss: seq<seq<seq<byte>>>)
    requires |r| == BUFFER && Stream(datagrams, mss) && AllWhole(Concat(mss))
    ensures Dumped(r, datagrams, out) == Verdict(out, Concat(mss))
    decreases |mss|
  {
    if mss != [] {
      var d := datagrams[0];
      var r' := Fill(r, d);
      assert r'[0..|d|] == d;
      LaysWhole(d, mss[0]);
      InnerReads(r', |d|, 0, out, mss[0]);
      StreamWhole(datagrams[1..], mss[1..]);
      VerdictSplits(out, mss[0], Concat(mss[1..]));
      var o := Verdict(out, mss[0]);
      if o.Waiting? {
        DumpedReads(r', datagrams[1..], o.msgs, mss[1..]);
      }
    }
  }

  /** A dump whose message `k` is the first to end it, and is DONE, returns exactly the `k` messages
      before it, in order; it fails if that message reports an error; else it takes all and waits. */
  lemma DumpExact(datagrams: seq<seq<byte>>, mss: seq<seq<seq<byte>>>, k: nat)
    requires Stream(datagrams, mss) && AllWhole(Concat(mss)) && k <= |Concat(mss)|
    requires forall i :: 0 <= i < k ==> !Ends(Concat(mss)[i])
    requires k < |Concat(mss)| ==> Ends(Concat(mss)[k])
    ensures Dumped(Zeros(BUFFER), datagrams, []) ==
              var ms := Concat(mss);
              if k == |ms| then Waiting(ms)
              else if IsDone(ms[k]) then Returned(ms[..k])
              else Failed(I32At(ms[k], 16))
  {
    DumpedReads(Zeros(BUFFER), datagrams, [], mss);
    VerdictMeans([], Concat(mss), k);
    assert [] + Concat(mss) == Concat(mss) && [] + Concat(mss)[..k] == Concat(mss)[..k];
  }

  /** In the numbers of the protocol: type 3 ends the dump, type 2 with a nonzero code fails it, and the
      buffer has 32768 bytes. */
  lemma MessageTypes(m: seq<byte>)
    requires Whole(m)
    ensures IsDone(m) <==> U16At(m, 4) == 3
    ensures IsError(m) <==> U16At(m, 4) == 2 && I32At(m, 16) != 0
    ensures BUFFER == 32768
  {
  }

  // ------------------------------------------------------ bad endings of a whole dump

  datatype Ending = Hanging | Crashing

  /** The walk over the buffer comes to a header that makes it end this way. */
  ghost predicate Meets(r: seq<byte>, n: nat, e: Ending)
    requires n <= |r|
  {
    exists to :: Visits(r, n, 0, to) && if e.Hanging? then StandsStill(r, n, to) else CutError(r, n, to)
  }

  /** The walk over the buffer gets to the end of what was received. */
  ghost predicate Drains(r: seq<byte>, n: nat)
    requires n <= |r|
  {
    exists to: nat :: Visits(r, n, 0, to) && to + 16 > n
  }

  function Bad(e: Ending): Outcome {
    if e.Hanging? then Hangs else Crashed
  }

  lemma InnerEnds(r: seq<byte>, n: nat, out: seq<seq<byte>>, e: Ending)
    requires n <= |r|
    ensures Inner(r, n, 0, out) == Bad(e) <==> Meets(r, n, e)
    ensures Inner(r, n, 0, out).Waiting? <==> Drains(r, n)
  {
    HangsAtZeroLength(r, n, 0, out);
    CrashesAtCutError(r, n, 0, out);
    var last := LastVisit(r, n, 0);
    EndDecides(r, n, 0, out, last);
    forall to: nat | Visits(r, n, 0, to) && to + 16 > n ensures Inner(r, n, 0, out).Waiting? {
      assert !GoesOn(r, n, to);
      EndDecides(r, n, 0, out, to);
    }
  }

  /** The buffer once datagram `i` is received, stale bytes included. */
  function BufferAt(r: seq<byte>, datagrams: seq<seq<byte>>, i: nat): (b: seq<byte>)
    requires i < |datagrams|
    ensures |b| == |r|
    decreases i
  {
    var first := Fill(r, datagrams[0]);
    if i == 0 then first else BufferAt(first, datagrams[1..], i - 1)
  }

  /** The dump drains every datagram before `i`, and there it comes to such a header. */
  ghost predicate EndsIn(r: seq<byte>, datagrams: seq<seq<byte>>, i: nat, e: Ending) {
    && i < |datagrams|
    && (forall j :: 0 <= j < i ==> Drains(BufferAt(r, datagrams, j), Min(|datagrams[j]|, |r|)))
    && Meets(BufferAt(r, datagrams, i), Min(|datagrams[i]|, |r|), e)
  }

  lemma EndsLater(r: seq<byte>, datagrams: seq<seq<byte>>, i: nat, e: Ending)
    requires datagrams != []
    ensures EndsIn(r, datagrams, i + 1, e) <==>
            Drains(Fill(r, datagrams[0]), Min(|datagrams[0]|, |r|)) && EndsIn(Fill(r, datagrams[0]), datagrams[1..], i, e)
  {
    var first, rest := Fill(r, datagrams[0]), datagrams[1..];
    forall j | 0 <= j < |rest| ensures BufferAt(r, datagrams, j + 1) == BufferAt(first, rest, j) && rest[j] == datagrams[j + 1] {
    }
    if EndsIn(r, datagrams, i + 1, e) {
      assert Drains(BufferAt(r, datagrams, 0), Min(|datagrams[0]|, |r|));
      forall j | 0 <= j < i ensures Drains(BufferAt(first, rest, j), Min(|rest[j]|, |first|)) {
        assert Drains(BufferAt(r, datagrams, j + 1), Min(|datagrams[j + 1]|, |r|));
      }
    }
    if Drains(first, Min(|datagrams[0]|, |r|)) && EndsIn(first, rest, i, e) {
      forall j | 0 <= j < i + 1 ensures Drains(BufferAt(r, datagrams, j), Min(|datagrams[j]|, |r|)) {
        assert j > 0 ==> Drains(BufferAt(first, rest, j - 1), Min(|rest[j - 1]|, |first|));
      }
    }
  }

  lemma EndsFirst(r: seq<byte>, datagrams: seq<seq<byte>>, e: Ending)
    requires datagrams != []
    ensures EndsIn(r, datagrams, 0, e) <==> Meets(Fill(r, datagrams[0]), Min(|datagrams[0]|, |r|), e)
  {
  }

  /** A bad end in the first datagram is the end. */
  lemma EndsAtOnce(r: seq<byte>, datagrams: seq<seq<byte>>, out: seq<seq<byte>>, e: Ending)
    requires EndsIn(r, datagrams, 0, e)
    ensures Dumped(r, datagrams, out) == Bad(e)
  {
    EndsFirst(r, datagrams, e);
    InnerEnds(Fill(r, datagrams[0]), Min(|datagrams[0]|, |r|), out, e);
  }

  /** A drained datagram is behind the dump. */
  lemma DrainsFirst(r: seq<byte>, datagrams: seq<seq<byte>>, out: seq<seq<byte>>) returns (more: seq<seq<byte>>)
    requires datagrams != [] && Drains(Fill(r, datagrams[0]), Min(|datagrams[0]|, |r|))
    ensures Dumped(r, datagrams, out) == Dumped(Fill(r, datagrams[0]), datagrams[1..], more)
  {
    var first, n := Fill(r, datagrams[0]), Min(|datagrams[0]|, |r|);
    InnerEnds(first, n, out, Hanging);
    more := Inner(first, n, 0, out).msgs;
  }

  lemma {:induction false} EndsBadly(r: seq<byte>, datagrams: seq<seq<byte>>, out: seq<seq<byte>>, i: nat, e: Ending)
    requires EndsIn(r, datagrams, i, e)
    ensures Dumped(r, datagrams, out) == Bad(e)
    decreases i
  {
    if i == 0 {
      EndsAtOnce(r, datagrams, out, e);
    } else {
      EndsLater(r, datagrams, i - 1, e);
      var more := DrainsFirst(r, datagrams, out);
      EndsBadly(Fill(r, datagrams[0]), datagrams[1..], more, i - 1, e);
    }
  }

  lemma {:induction false} BadEnd(r: seq<byte>, datagrams: seq<seq<byte>>, out: seq<seq<byte>>, e: Ending) returns (i: nat)
    requires Dumped(r, datagrams, out) == Bad(e)
    ensures EndsIn(r, datagrams, i, e)
    decreases |datagrams|
  {
    var first, n := Fill(r, datagrams[0]), Min(|datagrams[0]|, |r|);
    var o := Inner(first, n, 0, out);
    InnerEnds(first, n, out, e);
    if o.Waiting? {
      var j := BadEnd(first, datagrams[1..], o.msgs, e);
      EndsLater(r, datagrams, j, e);
      i := j + 1;
    } else {
      EndsFirst(r, datagrams, e);
      i := 0;
    }
  }

  /** On arbitrary datagrams, the dump hangs, or indexes out of bounds, if and only if the first datagram
      that it does not drain has a visited header of length zero, or a visited error header in the last
      bytes of the buffer, among the received bytes and those left over from earlier datagrams. */
  lemma DumpEndsExact(r: seq<byte>, datagrams: seq<seq<byte>>, out: seq<seq<byte>>, e: Ending)
    ensures Dumped(r, datagrams, out) == Bad(e) <==> exists i: nat :: EndsIn(r, datagrams, i, e)
  {
    if Dumped(r, datagrams, out) == Bad(e) {
      var i := BadEnd(r, datagrams, out, e);
    }
    forall i: nat | EndsIn(r, datagrams, i, e) ensures Dumped(r, datagrams, out) == Bad(e) {
      EndsBadly(r, datagrams, out, i, e);
    }
  }

  // ------------------------------------------------------------------- two bad inputs

  /** Sixteen zero bytes hang the dump. */
  lemma ZerosHang()
    ensures Dumped(Zeros(BUFFER), [Zeros(16)], []) == Hangs
  {
    var r := Fill(Zeros(BUFFER), Zeros(16));
    assert r == Zeros(BUFFER);
    assert StandsStill(r, 16, 0) && Visits(r, 16, 0, 0);
    HangsAtZeroLength(r, 16, 0, []);
  }

  /** A message that fills the buffer up to its last 16 bytes, and there the header of an error. */
  function FullDatagram(): (d: seq<byte>)
    ensures |d| == BUFFER
  {
    Le32(BUFFER - 16) + Zeros(BUFFER - 20) + (Le32(16) + Le16(NLMSG_ERROR) + Zeros(10))
  }

  lemma FullDatagramCrashes()
    ensures Dumped(Zeros(BUFFER), [FullDatagram()], []) == Crashed
  {
    var d := FullDatagram();
    var r := Fill(Zeros(BUFFER), d);
    assert r == d;
    Le32Value(BUFFER - 16);
    assert U32At(d, 0) == BUFFER - 16 && U16At(d, 4) == 0;
    Le16Value(NLMSG_ERROR);
    assert U16At(d, BUFFER - 12) == NLMSG_ERROR;
    assert Align(BUFFER - 16) == BUFFER - 16;
    assert Visits(r, BUFFER, BUFFER - 16, BUFFER - 16);
    assert Visits(r, BUFFER, 0, BUFFER - 16) && CutError(r, BUFFER, BUFFER - 16);
    CrashesAtCutError(r, BUFFER, 0, []);
  }
}
