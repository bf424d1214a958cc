/** What the pool guarantees in every interleaving of its tasks. */
module PoolTheorems {
  import opened Basics
  import opened PoolMachine
  import opened PoolInvariants

  ghost predicate Reachable(poolSize: nat, s: State) {
    exists run :: Reaches(poolSize, InitialState(), run, s)
  }

  lemma ReachableInv(poolSize: nat, s: State)
    requires Reachable(poolSize, s)
    ensures Inv(poolSize, s)
  {
    var run :| Reaches(poolSize, InitialState(), run, s);
    InitialInv(poolSize);
    RunKeeps(poolSize, InitialState(), run, s);
  }

  lemma SplitInFlight(tasks: map<TaskId, Task>)
    ensures Count(tasks, InFlight) == Count(tasks, Counted) + Count(tasks, Uncounting)
  {
    assert Where(tasks, InFlight) == Where(tasks, Counted) + Where(tasks, Uncounting);
    assert Where(tasks, Counted) !! Where(tasks, Uncounting);
  }

  /** The counter is the size of the active map, plus the tasks between their two operations,
      plus the VMs that an insert displaced. So it never underflows and never under-reports, and
      once no task is between its operations it is exact if and only if nothing was displaced;
      nothing is displaced unless some id read was overtaken by another CID allocation. */
  lemma Counter(poolSize: nat, s: State)
    requires Reachable(poolSize, s)
    ensures s.sh.count
         == |s.sh.active| + Count(s.tasks, Counted) + Count(s.tasks, Uncounting) + |s.overwritten|
    ensures s.sh.count >= |s.sh.active| >= 0
    ensures Count(s.tasks, Counted) == 0 == Count(s.tasks, Uncounting) ==>
              (s.sh.count == |s.sh.active| <==> s.overwritten == {})
    ensures s.clashes == 0 ==> s.overwritten == {}
  {
    ReachableInv(poolSize, s);
    SplitInFlight(s.tasks);
  }

  // ------------------------------------------------------------- one place

  ghost function ReadyAt(s: State, v: Vm): set<nat> {
    set i: nat | i < |s.sh.ready| && s.sh.ready[i] == v
  }

  ghost function CarriersOf(s: State, v: Vm): set<TaskId> {
    set t | t in s.tasks && Carried(s.tasks[t]) == Some(v)
  }

  predicate IsActive(s: State, v: Vm) {
    v.id in s.sh.active && s.sh.active[v.id] == v
  }

  predicate HasLeft(place: Place) {
    place.Released? || place.Failed? || place.Orphaned? || place.Overwritten?
  }

  ghost function PlacesOf(s: State, v: Vm): nat {
    |ReadyAt(s, v)| + |CarriersOf(s, v)| + One(IsActive(s, v)) + One(v.cid in s.ledger && HasLeft(s.ledger[v.cid].place))
  }

  lemma ReadyOnce(s: State, v: Vm)
    requires ReadyInv(s.sh.ready, s.ledger)
    ensures |ReadyAt(s, v)| == One(v in s.sh.ready)
  {
    if v in s.sh.ready {
      var i :| 0 <= i < |s.sh.ready| && s.sh.ready[i] == v;
      assert ReadyAt(s, v) == {i};
    } else {
      assert ReadyAt(s, v) == {};
    }
  }

  lemma CarriedOnce(s: State, c: nat)
    requires Keyed(s.ledger) && TaskInv(s.tasks, s.ledger) && c in s.ledger
    ensures |CarriersOf(s, s.ledger[c].vm)| == One(s.ledger[c].place.InTask?)
  {
    var v := s.ledger[c].vm;
    if s.ledger[c].place.InTask? {
      assert CarriersOf(s, v) == {s.ledger[c].place.t};
    } else {
      assert CarriersOf(s, v) == {};
    }
  }

  /** Every VM that was given a CID is in exactly one place: once in the ready vector, with exactly
      one task, in the active map, or gone. */
  lemma OnePlace(poolSize: nat, s: State, c: nat)
    requires Reachable(poolSize, s) && c in s.ledger
    ensures PlacesOf(s, s.ledger[c].vm) == 1
  {
    ReachableInv(poolSize, s);
    ReadyOnce(s, s.ledger[c].vm);
    CarriedOnce(s, c);
    var v := s.ledger[c].vm;
    assert v in s.sh.ready ==> Recorded(s.ledger, v, InReady);
    assert IsActive(s, v) ==> Recorded(s.ledger, v, InActive);
  }

  /** No two calls of `acquire` or `register_active`, anywhere in a run, hand out the same VM. */
  lemma NoSharedGrant(poolSize: nat, s: State, i: nat, j: nat)
    requires Reachable(poolSize, s) && i < j < |s.granted|
    ensures s.granted[i] != s.granted[j] && s.granted[i].cid != s.granted[j].cid
    ensures s.clashes == 0 ==> s.granted[i].id != s.granted[j].id
  {
    ReachableInv(poolSize, s);
    var v, w := s.granted[i], s.granted[j];
    assert s.ledger[v.cid].vm == v && s.ledger[w.cid].vm == w;
  }

  /** CIDs given to the base VM, pool VMs and warm VMs are pairwise distinct and at least 3,
      and every VM in the system carries one of them. */
  lemma DistinctCids(poolSize: nat, s: State)
    requires Reachable(poolSize, s)
    ensures forall i, j :: 0 <= i < j < |s.issued| ==> s.issued[i] != s.issued[j]
    ensures forall i :: 0 <= i < |s.issued| ==> s.issued[i] >= 3
    ensures forall c :: c in s.ledger ==> c in s.issued
  {
    ReachableInv(poolSize, s);
    forall c | c in s.ledger ensures c in s.issued {
      assert s.issued[c - FIRST_CID] == c;
    }
  }

  /** With at most K replenishers past the length check at any time, ready VMs plus those
      replenishers stay within max(pool_size, pool_size - 1 + K); one at a time never overfills. */
  lemma PoolBound(poolSize: nat, s: State)
    requires Reachable(poolSize, s)
    ensures |s.sh.ready| + Count(s.tasks, Refilling) <= Capacity(poolSize, s.peak)
    ensures s.peak <= 1 ==> |s.sh.ready| <= poolSize
  {
    ReachableInv(poolSize, s);
  }

  // ------------------------------------------------------- the id clash

  lemma {:induction false} ReachesSnoc(poolSize: nat, s: State, run: seq<Step>, r: State, step: Step)
    requires Reaches(poolSize, s, run, r) && Enabled(r, step)
    ensures Reaches(poolSize, s, run + [step], Do(poolSize, r, step))
    decreases |run|
  {
    if run == [] {
      assert Reaches(poolSize, Do(poolSize, s, step), [], Do(poolSize, s, step));
      assert (run + [step])[1..] == [];
    } else {
      ReachesSnoc(poolSize, Do(poolSize, s, run[0]), run[1..], r, step);
      assert (run + [step])[1..] == run[1..] + [step];
    }
  }

  lemma Extend(poolSize: nat, s: State, step: Step)
    requires Reachable(poolSize, s) && Enabled(s, step)
    ensures Reachable(poolSize, Do(poolSize, s, step))
  {
    var run :| Reaches(poolSize, InitialState(), run, s);
    ReachesSnoc(poolSize, InitialState(), run, s, step);
  }

  lemma After(s: State, step: Step) returns (r: State)
    requires Reachable(0, s) && Enabled(s, step)
    ensures r == Do(0, s, step) && Reachable(0, r)
  {
    r := Do(0, s, step);
    Extend(0, s, step);
  }

  const ALICE := PodClient("a")
  const BOB := PodClient("b")
  const FIRST := Vm(PoolVmId(3), 3)
  const SECOND := Vm(PoolVmId(3), 4)

  function Blank(sh: Shared, tasks: map<TaskId, Task>): State {
    State(sh, 0, tasks, true, map[], [], [], {}, 0, 0, map[])
  }

  lemma BothPop() returns (s: State)
    ensures Reachable(0, s)
    ensures s == Blank(Shared([], map[], 0, 3), map[1 := LoadId(Serve(ALICE)), 2 := LoadId(Serve(BOB))])
  {
    s := InitialState();
    assert Reaches(0, s, [], s);
    s := After(s, Control(0, Base(false)));
    s := After(s, Control(0, FillHead));
    assert s == Blank(Shared([], map[], 0, 3), map[]);
    s := After(s, Handler(1, Spawn(Popping(ALICE))));
    s := After(s, Handler(2, Spawn(Popping(BOB))));
    s := After(s, Acquire(1, Pop));
    s := After(s, Acquire(2, Pop));
  }

  lemma BothFetch() returns (s: State)
    ensures Reachable(0, s) && s.clashes == 1 && s.sh == Shared([], map[], 0, 5) && s.granted == []
    ensures s.tasks == map[1 := Booting(Serve(ALICE), FIRST), 2 := Booting(Serve(BOB), SECOND)]
  {
    s := BothPop();
    s := After(s, Restore(1, Load));
    s := After(s, Restore(2, Load));
    assert s.tasks == map[1 := FetchCid(Serve(ALICE), 3), 2 := FetchCid(Serve(BOB), 3)];
    s := After(s, Restore(1, Fetch));
    s := After(s, Restore(2, Fetch));
  }

  lemma BothCount() returns (s: State)
    ensures Reachable(0, s) && s.clashes == 1 && s.sh == Shared([], map[], 2, 5) && s.granted == []
    ensures s.tasks == map[1 := Inserting(ALICE, FIRST), 2 := Inserting(BOB, SECOND)]
  {
    s := BothFetch();
    s := After(s, Restore(1, Boot(true)));
    s := After(s, Restore(2, Boot(true)));
    assert s.tasks == map[1 := CountUp(ALICE, FIRST), 2 := CountUp(BOB, SECOND)];
    s := After(s, Acquire(1, AddCount));
    s := After(s, Acquire(2, AddCount));
  }

  /** Two empty-pool acquirers that both read the counter before either increments it share an id:
      both get a VM, the counter says two, and the active map holds only one of them. */
  lemma ClashRun() returns (s: State)
    ensures Reachable(0, s) && Where(s.tasks, InFlight) == {}
    ensures s.sh.count == 2 && s.sh.active == map[FIRST.id := SECOND]
    ensures s.granted == [FIRST, SECOND] && s.clashes == 1
  {
    s := BothCount();
    s := After(s, Acquire(1, Insert));
    assert s.sh.active == map[FIRST.id := FIRST];
    s := After(s, Acquire(2, Insert));
    assert s.tasks == map[1 := Holding(ALICE, FIRST), 2 := Holding(BOB, SECOND)];
  }
}
