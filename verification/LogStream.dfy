/** Container logs: two append-only buffers filled by reader tasks (crates/agent/src/container.rs)
    and a polling call with one shared offset (crates/agent/src/server.rs). */
module LogStream {
  import opened Basics

  datatype Logs = Logs(stdout: seq<byte>, stderr: seq<byte>, eof: bool)

  datatype Reply = Reply(stdout: seq<byte>, stderr: seq<byte>, offset: nat, eof: bool)

  function Max(a: nat, b: nat): nat {
    if a >= b then a else b
  }

  function Tail(s: seq<byte>, offset: nat): seq<byte> {
    if offset < |s| then s[offset..] else []
  }

  /** `get_container_logs`: a container without a buffer answers end of file. */
  function GetContainerLogs(buffer: Option<Logs>, offset: nat): Reply {
    match buffer
    case None => Reply([], [], 0, true)
    case Some(logs) =>
      Reply(Tail(logs.stdout, offset), Tail(logs.stderr, offset), Max(|logs.stdout|, |logs.stderr|), logs.eof)
  }

  // ----------------------------------------------------------------------------- runs

  datatype Which = Stdout | Stderr

  /** What can happen to a started container: a reader task appends, the exit task sets end of
      file without waiting for the readers, the client polls with the offset it was last given. */
  datatype Event = Append(which: Which, data: seq<byte>) | Exit | Poll

  /** A poll: the buffer it found, the offset it asked for, the answer. */
  datatype Polled = Polled(logs: Logs, asked: nat, reply: Reply)

  datatype State = State(logs: Logs, offset: nat, polls: seq<Polled>)

  const START: State := State(Logs([], [], false), 0, [])

  function Do(s: State, e: Event): State {
    match e
    case Append(Stdout, data) => s.(logs := s.logs.(stdout := s.logs.stdout + data))
    case Append(Stderr, data) => s.(logs := s.logs.(stderr := s.logs.stderr + data))
    case Exit => s.(logs := s.logs.(eof := true))
    case Poll =>
      var reply := GetContainerLogs(Some(s.logs), s.offset);
      s.(offset := reply.offset, polls := s.polls + [Polled(s.logs, s.offset, reply)])
  }

  function Run(events: seq<Event>): State {
    if events == [] then START else Do(Run(events[..|events| - 1]), events[|events| - 1])
  }

  // ------------------------------------------------------------------------ one stream

  function Text(logs: Logs, which: Which): seq<byte> {
    match which
    case Stdout => logs.stdout
    case Stderr => logs.stderr
  }

  function Sent(reply: Reply, which: Which): seq<byte> {
    match which
    case Stdout => reply.stdout
    case Stderr => reply.stderr
  }

  /** Everything that `polls` delivered of a stream. */
  function Got(polls: seq<Polled>, which: Which): seq<byte> {
    if polls == [] then [] else Got(polls[..|polls| - 1], which) + Sent(polls[|polls| - 1].reply, which)
  }

  /** The length of the stream when `p` was made. */
  function Length(p: Polled, which: Which): nat {
    |Text(p.logs, which)|
  }

  ghost predicate Grows(a: Logs, b: Logs) {
    a.stdout <= b.stdout && a.stderr <= b.stderr
  }

  ghost predicate Answered(p: Polled) {
    && p.reply == GetContainerLogs(Some(p.logs), p.asked)
    && p.asked <= p.reply.offset
  }

  ghost predicate AllAnswered(polls: seq<Polled>) {
    forall i :: 0 <= i < |polls| ==> Answered(polls[i])
  }

  ghost predicate BuffersGrow(polls: seq<Polled>) {
    forall i, j :: 0 <= i < j < |polls| ==> Grows(polls[i].logs, polls[j].logs)
  }

  /** Each poll asks for what the one before answered. */
  ghost predicate OffsetsChain(polls: seq<Polled>) {
    && (forall i, j :: 0 <= i < j < |polls| ==> polls[i].reply.offset <= polls[j].asked)
    && (forall i :: 1 <= i < |polls| ==> polls[i].asked == polls[i - 1].reply.offset)
    && (polls != [] ==> polls[0].asked == 0)
  }

  ghost predicate Chained(polls: seq<Polled>) {
    AllAnswered(polls) && BuffersGrow(polls) && OffsetsChain(polls)
  }

  function LastOffset(polls: seq<Polled>): nat {
    if polls == [] then 0 else polls[|polls| - 1].reply.offset
  }

  /** All polls were made of earlier forms of `logs`. */
  ghost predicate Earlier(polls: seq<Polled>, logs: Logs) {
    forall i :: 0 <= i < |polls| ==> Grows(polls[i].logs, logs)
  }

  ghost predicate Inv(s: State) {
    && Chained(s.polls) && Earlier(s.polls, s.logs)
    && s.offset == LastOffset(s.polls)
    && s.offset <= Max(|s.logs.stdout|, |s.logs.stderr|)
  }

  lemma EarlierGrows(polls: seq<Polled>, logs: Logs, more: Logs)
    requires Earlier(polls, logs) && Grows(logs, more)
    ensures Earlier(polls, more)
  {
    forall i | 0 <= i < |polls| ensures Grows(polls[i].logs, more) {
      assert Grows(polls[i].logs, logs);
    }
  }

  lemma OffsetsSnoc(polls: seq<Polled>, p: Polled)
    requires AllAnswered(polls) && OffsetsChain(polls) && p.asked == LastOffset(polls)
    ensures OffsetsChain(polls + [p])
  {
    forall i | 0 <= i < |polls| ensures polls[i].reply.offset <= p.asked {
      assert Answered(polls[|polls| - 1]);
    }
  }

  lemma BuffersSnoc(polls: seq<Polled>, p: Polled)
    requires BuffersGrow(polls) && Earlier(polls, p.logs)
    ensures BuffersGrow(polls + [p])
  {
  }

  lemma PollKeeps(s: State)
    requires Inv(s)
    ensures Inv(Do(s, Poll)) && s.offset <= Do(s, Poll).offset
  {
    var p := Polled(s.logs, s.offset, GetContainerLogs(Some(s.logs), s.offset));
    assert Answered(p);
    OffsetsSnoc(s.polls, p);
    BuffersSnoc(s.polls, p);
  }

  lemma DoKeeps(s: State, e: Event)
    requires Inv(s)
    ensures Inv(Do(s, e)) && s.offset <= Do(s, e).offset
  {
    if e.Poll? {
      PollKeeps(s);
    } else {
      EarlierGrows(s.polls, s.logs, Do(s, e).logs);
    }
  }

  lemma {:induction false} RunKeeps(events: seq<Event>)
    ensures Inv(Run(events))
  {
    if events != [] {
      RunKeeps(events[..|events| - 1]);
      DoKeeps(Run(events[..|events| - 1]), events[|events| - 1]);
    }
  }

  /** In every run offsets never decrease, from poll to poll and within a poll. */
  lemma OffsetsGrow(events: seq<Event>, i: nat, j: nat)
    requires i < j < |Run(events).polls|
    ensures var polls := Run(events).polls;
            polls[i].asked <= polls[i].reply.offset <= polls[j].asked <= polls[j].reply.offset
  {
    RunKeeps(events);
    var polls := Run(events).polls;
    assert Answered(polls[i]) && Answered(polls[j]);
  }

  /** Position `k` of the stream is in the answer to `p`. */
  predicate Delivers(p: Polled, which: Which, k: nat) {
    p.asked <= k < Length(p, which)
  }

  /** In every run no position is delivered by two polls, and a delivered byte is the byte that the
      stream holds there at the end of the run. */
  lemma NeverTwice(events: seq<Event>, which: Which, i: nat, j: nat, k: nat)
    requires i <= j < |Run(events).polls|
    requires Delivers(Run(events).polls[i], which, k) && Delivers(Run(events).polls[j], which, k)
    ensures i == j
    ensures var p := Run(events).polls[i];
            && |Sent(p.reply, which)| == Length(p, which) - p.asked
            && k < |Text(Run(events).logs, which)|
            && Sent(p.reply, which)[k - p.asked] == Text(Run(events).logs, which)[k]
  {
    RunKeeps(events);
    var s := Run(events);
    assert Answered(s.polls[i]) && Answered(s.polls[j]);
    assert Grows(s.polls[i].logs, s.logs);
  }

  // --------------------------------------------------------------------- completeness

  /** At poll `i` the stream is as long as the offset that was answered, or it does not grow any
      more up to the last poll. */
  predicate NoGapAt(polls: seq<Polled>, which: Which, i: nat)
    requires i < |polls|
  {
    || Length(polls[i], which) == polls[i].reply.offset
    || Length(polls[i], which) == Length(polls[|polls| - 1], which)
  }

  predicate NoGap(polls: seq<Polled>, which: Which) {
    forall i :: 0 <= i < |polls| ==> NoGapAt(polls, which, i)
  }

  lemma ChainedFront(polls: seq<Polled>)
    requires Chained(polls) && polls != []
    ensures Chained(polls[..|polls| - 1])
  {
  }

  lemma {:induction false} GotBound(polls: seq<Polled>, which: Which)
    requires Chained(polls) && polls != []
    ensures |Got(polls, which)| <= Length(polls[|polls| - 1], which)
    decreases |polls|
  {
    var n := |polls| - 1;
    var front, p := polls[..n], polls[n];
    assert Answered(p);
    if n > 0 {
      ChainedFront(polls);
      GotBound(front, which);
      assert Grows(polls[n - 1].logs, p.logs) && Answered(polls[n - 1]);
    }
  }

  /** What the last poll adds. */
  lemma LastPiece(polls: seq<Polled>, which: Which)
    requires Chained(polls) && |polls| >= 2
    ensures var n := |polls| - 1;
            var o, l, text := polls[n - 1].reply.offset, Length(polls[n - 1], which), Text(polls[n].logs, which);
            && l <= o && l <= |text|
            && Text(polls[n - 1].logs, which) == text[..l]
            && Got(polls, which) == Got(polls[..n], which) + Tail(text, o)
  {
    var n := |polls| - 1;
    assert Answered(polls[n]) && Answered(polls[n - 1]);
    assert Grows(polls[n - 1].logs, polls[n].logs);
  }

  /** Dropping the last poll and the gap condition. */
  lemma NoGapFront(polls: seq<Polled>, which: Which)
    requires Chained(polls) && |polls| >= 2
    ensures var n := |polls| - 1;
            var o, l, m := polls[n - 1].reply.offset, Length(polls[n - 1], which), Length(polls[n], which);
            NoGap(polls, which) <==> NoGap(polls[..n], which) && (l == m || l == o)
  {
    var n := |polls| - 1;
    var front := polls[..n];
    var o, l, m := polls[n - 1].reply.offset, Length(polls[n - 1], which), Length(polls[n], which);
    forall i | 0 <= i < n
      ensures Length(front[i], which) <= l <= m && Length(front[i], which) <= front[i].reply.offset <= o
    {
      assert Answered(polls[i]) && Answered(polls[n - 1]);
      assert Grows(polls[n - 1].logs, polls[n].logs);
      assert i < n - 1 ==> Grows(polls[i].logs, polls[n - 1].logs);
    }
    if NoGap(polls, which) {
      assert NoGapAt(polls, which, n - 1);
      forall i | 0 <= i < n ensures NoGapAt(front, which, i) {
        assert NoGapAt(polls, which, i);
      }
    }
    if NoGap(front, which) && (l == m || l == o) {
      forall i | 0 <= i <= n ensures NoGapAt(polls, which, i) {
        assert i < n ==> NoGapAt(front, which, i);
      }
    }
  }

  lemma {:induction false} CompleteIff(polls: seq<Polled>, which: Which)
    requires Chained(polls) && polls != []
    ensures Got(polls, which) == Text(polls[|polls| - 1].logs, which) <==> NoGap(polls, which)
    decreases |polls|
  {
    var n := |polls| - 1;
    var text := Text(polls[n].logs, which);
    if n == 0 {
      assert Answered(polls[0]) && Got(polls[..0], which) == [];
      assert Got(polls, which) == Tail(text, 0) == text;
    } else {
      ChainedFront(polls);
      CompleteIff(polls[..n], which);
      GotBound(polls[..n], which);
      LastPiece(polls, which);
      NoGapFront(polls, which);
      var o, l := polls[n - 1].reply.offset, Length(polls[n - 1], which);
      Paste(Got(polls[..n], which), text, l, o);
    }
  }

  /** Of a text, something no longer than its first `l` bytes and the tail from `o` make up the
      whole exactly if the former is those `l` bytes and nothing lies between. */
  lemma Paste(got: seq<byte>, text: seq<byte>, l: nat, o: nat)
    requires |got| <= l <= |text| && l <= o
    ensures got + Tail(text, o) == text <==> got == text[..l] && (l == |text| || l == o)
  {
    if got + Tail(text, o) == text {
      assert got == text[..|got|];
    }
    if got == text[..l] && l == |text| {
      assert text[..l] == text;
    }
  }

  /** In every run with a poll: the answers put together are the stream as the last poll found it if
      and only if at each poll the stream was as long as the answered offset or has not grown since. */
  lemma DeliveredIffNoGap(events: seq<Event>, which: Which)
    requires Run(events).polls != []
    ensures var polls := Run(events).polls;
            Got(polls, which) == Text(polls[|polls| - 1].logs, which) <==> NoGap(polls, which)
  {
    RunKeeps(events);
    CompleteIff(Run(events).polls, which);
  }

  function Other(which: Which): Which {
    if which == Stdout then Stderr else Stdout
  }

  /** A stream that is at least as long as the other one at every poll is delivered whole. */
  lemma LongerIsWhole(events: seq<Event>, which: Which)
    requires var polls := Run(events).polls;
             polls != [] && forall i :: 0 <= i < |polls| ==> Length(polls[i], which) >= Length(polls[i], Other(which))
    ensures var polls := Run(events).polls; Got(polls, which) == Text(polls[|polls| - 1].logs, which)
  {
    RunKeeps(events);
    var polls := Run(events).polls;
    forall i | 0 <= i < |polls| ensures NoGapAt(polls, which, i) {
      assert Answered(polls[i]);
    }
    DeliveredIffNoGap(events, which);
  }

  /** A byte on standard error that arrives after a poll that saw more on standard output is never
      delivered; and end of file may be reported before it arrives. */
  lemma GapRun()
    ensures var polls := Run([Append(Stdout, [1, 2]), Exit, Poll, Append(Stderr, [7]), Poll]).polls;
            && |polls| == 2 && polls[0].reply.eof
            && polls[1].logs.stderr == [7] && Got(polls, Stderr) == []
  {
    var full := Logs([1, 2], [], true);
    var p := Polled(full, 0, Reply([1, 2], [], 2, true));
    var q := Polled(full.(stderr := [7]), 2, Reply([], [], 2, true));
    FirstPoll();
    var three := [Append(Stdout, [1, 2]), Exit, Poll];
    RunSnoc(three, Append(Stderr, [7]));
    assert [] + [7] == [7];
    assert Run(three + [Append(Stderr, [7])]) == State(full.(stderr := [7]), 2, [p]);
    RunSnoc(three + [Append(Stderr, [7])], Poll);
    assert three + [Append(Stderr, [7])] + [Poll] == [Append(Stdout, [1, 2]), Exit, Poll, Append(Stderr, [7]), Poll];
    assert Run([Append(Stdout, [1, 2]), Exit, Poll, Append(Stderr, [7]), Poll]).polls == [p, q];
    GotSnoc([p], q, Stderr);
    GotSnoc([], p, Stderr);
  }

  lemma FirstPoll()
    ensures Run([Append(Stdout, [1, 2]), Exit, Poll]) ==
            State(Logs([1, 2], [], true), 2, [Polled(Logs([1, 2], [], true), 0, Reply([1, 2], [], 2, true))])
  {
    RunSnoc([], Append(Stdout, [1, 2]));
    RunSnoc([Append(Stdout, [1, 2])], Exit);
    RunSnoc([Append(Stdout, [1, 2]), Exit], Poll);
    assert [] + [1, 2] == [1, 2] && [1, 2][0..] == [1, 2];
  }

  lemma RunSnoc(events: seq<Event>, e: Event)
    ensures Run(events + [e]) == Do(Run(events), e)
  {
    assert (events + [e])[..|events|] == events;
  }

  lemma GotSnoc(polls: seq<Polled>, p: Polled, which: Which)
    ensures Got(polls + [p], which) == Got(polls, which) + Sent(p.reply, which)
  {
    assert (polls + [p])[..|polls|] == polls;
  }

  // ---------------------------------------------------------------------- end of file

  lemma {:induction false} EofSet(events: seq<Event>)
    ensures Run(events).logs.eof <==> Exit in events
  {
    if events != [] {
      var n := |events| - 1;
      EofSet(events[..n]);
      assert events == events[..n] + [events[n]];
    }
  }

  /** A poll is answered with end of file if and only if the process exited before it. */
  lemma EofIffExited(events: seq<Event>)
    ensures var polls := Run(events + [Poll]).polls;
            polls != [] && (polls[|polls| - 1].reply.eof <==> Exit in events)
  {
    RunSnoc(events, Poll);
    EofSet(events);
  }

  /** A container without a buffer answers end of file, no bytes, and offset 0, whatever was asked for. */
  lemma NoBuffer(offset: nat)
    ensures GetContainerLogs(None, offset) == Reply([], [], 0, true)
  {
  }
}
