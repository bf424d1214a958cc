/** Runs of the composed system: deletes that take a VM from under live instances, a life without errors,
    and a warm start. */
module PodRuns {
  import opened Basics
  import opened PoolMachine
  import opened PodSystem
  import opened PodTheorems

  lemma {:induction false} SystemSnoc(s: System, run: seq<SystemStep>, r: System, step: SystemStep)
    requires SystemReaches(0, s, run, r) && SystemEnabled(r, step)
    ensures SystemReaches(0, s, run + [step], DoSystem(0, r, step))
    decreases |run|
  {
    if run == [] {
      assert (run + [step])[1..] == [];
    } else {
      assert (run + [step])[1..] == run[1..] + [step];
      SystemSnoc(DoSystem(0, s, run[0]), run[1..], r, step);
    }
  }

  lemma Then(s: System, step: SystemStep) returns (r: System)
    requires SystemReachable(0, s) && SystemEnabled(s, step)
    ensures r == DoSystem(0, s, step) && SystemReachable(0, r)
  {
    var run :| SystemReaches(0, InitialSystem(), run, s);
    SystemSnoc(InitialSystem(), run, s, step);
    r := DoSystem(0, s, step);
  }

  lemma Pool(s: System, step: Step) returns (r: System)
    requires SystemReachable(0, s) && OwnershipFree(step) && Enabled(s.pool, step)
    ensures r == s.(pool := Do(0, s.pool, step)) && SystemReachable(0, r)
  {
    r := Then(s, Daemon(Internal(step)));
  }

  lemma Handled(s: System, m: ShimStep) returns (r: System)
    requires SystemReachable(0, s) && ShimEnabled(s, m)
    ensures r == DoShim(s, m) && SystemReachable(0, r)
  {
    r := Then(s, Shim(m));
  }

  lemma Served(s: System, d: DaemonStep) returns (r: System)
    requires SystemReachable(0, s) && DaemonEnabled(s, d)
    ensures r == DoDaemon(0, s, d) && SystemReachable(0, r)
  {
    r := Then(s, Daemon(d));
  }

  const P: Client := PodClient("p")
  const VM: Vm := Vm(PoolVmId(3), 3)

  lemma Booted() returns (s: System)
    ensures SystemReachable(0, s) && s.pool.serving && s.pool.sh == Shared([], map[], 0, 3)
    ensures s.pool.tasks == map[] && s.pods == map[]
  {
    s := InitialSystem();
    assert SystemReaches(0, s, [], s);
    s := Pool(s, Control(0, Base(false)));
    s := Pool(s, Control(0, FillHead));
  }

  const WAITING: Pod := Pod(Some(SharedVm(1, None)), ForVm("c", 1), {"p"}, {"p", "c"}, 0, 0, 0)

  /** The sandbox is up and its first container asks for a VM. */
  lemma Asked() returns (s: System)
    ensures SystemReachable(0, s) && s.pool.serving && s.pool.sh == Shared([], map[], 0, 3)
    ensures s.pool.tasks == map[1 := Popping(P)] && s.pods == map["p" := WAITING]
  {
    s := Booted();
    s := Handled(s, StartSandbox("p"));
    s := Handled(s, FirstContainer("p", "c", 1, None));
    assert {"p"} + {"c"} == {"p", "c"};
    assert s.pods["p"] == WAITING;
  }

  lemma Popped() returns (s: System)
    ensures SystemReachable(0, s) && s.pool.serving && s.pool.sh == Shared([], map[], 0, 3)
    ensures s.pool.tasks == map[1 := FetchCid(Serve(P), 3)] && s.pods == map["p" := WAITING]
  {
    s := Asked();
    s := Pool(s, Acquire(1, Pop));
    s := Pool(s, Restore(1, Load));
  }

  /** The pool is empty, so a VM is restored for it. */
  lemma Restored() returns (s: System)
    ensures SystemReachable(0, s) && s.pool.serving && s.pool.sh == Shared([], map[], 0, 4)
    ensures s.pool.tasks == map[1 := CountUp(P, VM)] && s.pods == map["p" := WAITING]
  {
    s := Popped();
    s := Pool(s, Restore(1, Fetch));
    s := Pool(s, Restore(1, Boot(true)));
  }

  lemma Counted() returns (s: System)
    ensures SystemReachable(0, s) && s.pool.serving && s.pool.sh == Shared([], map[], 1, 4)
    ensures s.pool.tasks == map[1 := Inserting(P, VM)] && s.pods == map["p" := WAITING]
  {
    s := Restored();
    s := Pool(s, Acquire(1, AddCount));
  }

  lemma Granted() returns (s: System)
    ensures SystemReachable(0, s) && s.pool.serving && s.pool.sh == Shared([], map[VM.id := VM], 1, 4)
    ensures s.pool.tasks == map[1 := Holding(P, VM)] && s.pods == map["p" := WAITING]
  {
    s := Counted();
    s := Served(s, Grant(1));
  }

  lemma Replied() returns (s: System)
    ensures SystemReachable(0, s) && s.pool.serving
    ensures s.pool.tasks == map[1 := Replying(P, VM), 2 := Checking] && s.pods == map["p" := WAITING]
  {
    s := Granted();
    s := Served(s, Admit(1, 2, None));
    s := Served(s, RunDone(1, true));
  }

  lemma Running() returns (s: System)
    ensures SystemReachable(0, s) && s.pool.serving && s.pool.tasks == map[2 := Checking]
    ensures s.pods == map["p" := Pod(Some(SharedVm(2, Some(VM.id))), Idle, {"p", "c"}, {"p", "c"}, 1, 0, 0)]
  {
    s := Replied();
    s := Handled(s, Acquired("p"));
    assert {"p"} + {"c"} == {"p", "c"};
    assert s.pods["p"] == Pod(Some(SharedVm(2, Some(VM.id))), Idle, {"p", "c"}, {"p", "c"}, 1, 0, 0);
  }

  /** The container is deleted, the next one fails to start, and its delete has the VM released
      although the sandbox lives. */
  lemma StrayRun() returns (s: System)
    ensures SystemReachable(0, s) && "p" in s.pods && s.pods["p"].live == {"p"}
    ensures 4 in s.pool.tasks && s.pool.tasks[4] == Removing(P, VM.id)
  {
    s := Running();
    s := Handled(s, DeleteInstance("p", "c", 3));
    assert s.pods["p"].live == {"p"};
    s := Handled(s, AddContainer("p", "d", false));
    s := Handled(s, DeleteInstance("p", "d", 4));
  }

  /** A stray delete goes unnoticed at first. */
  lemma StrayBefore() returns (s: System)
    ensures SystemReachable(0, s) && s.pool.serving && s.pool.tasks == map[2 := Checking]
    ensures s.pods == map["p" := Pod(Some(SharedVm(1, Some(VM.id))), Idle, {"p", "c"}, {"p", "c", "d"}, 1, 0, 1)]
  {
    s := Running();
    s := Handled(s, AddContainer("p", "d", false));
    s := Handled(s, DeleteInstance("p", "d", 3));
    assert {"p", "c"} - {"d"} == {"p", "c"} && {"p", "c"} + {"d"} == {"p", "c", "d"};
    assert s.pods["p"] == Pod(Some(SharedVm(1, Some(VM.id))), Idle, {"p", "c"}, {"p", "c", "d"}, 1, 0, 1);
  }

  /** After one stray delete, the proper delete of a container has the VM released although the
      sandbox lives. */
  lemma LaterDeleteRun() returns (s: System)
    ensures SystemReachable(0, s) && "p" in s.pods && s.pods["p"].live == {"p"}
    ensures 4 in s.pool.tasks && s.pool.tasks[4] == Removing(P, VM.id)
  {
    s := StrayBefore();
    s := Handled(s, DeleteInstance("p", "c", 4));
    assert {"p", "c"} - {"c"} == {"p"};
  }

  /** After one stray delete, a second one has it released although both instances live. */
  lemma SecondStrayRun() returns (s: System)
    ensures SystemReachable(0, s) && "p" in s.pods && s.pods["p"].live == {"p", "c"}
    ensures 4 in s.pool.tasks && s.pool.tasks[4] == Removing(P, VM.id)
  {
    s := StrayBefore();
    s := Handled(s, AddContainer("p", "e", false));
    s := Handled(s, DeleteInstance("p", "e", 4));
    assert {"p", "c"} - {"e"} == {"p", "c"};
  }

  // --------------------------------------------------------- a life without errors

  const SHADOW: Client := ShadowClient("k")
  const VM2: Vm := Vm(PoolVmId(4), 4)

  /** The handler spawns a replenisher and a shadow. */
  lemma WithShadow() returns (s: System)
    ensures SystemReachable(0, s) && s.pool.serving && s.pool.sh == Shared([], map[VM.id := VM], 1, 4)
    ensures s.pool.tasks == map[1 := Task.Running(P, VM), 2 := Checking, 3 := Popping(SHADOW)] && s.pods == map["p" := WAITING]
  {
    s := Granted();
    s := Served(s, Admit(1, 2, Some((3, "k"))));
  }

  const TWO: Pod := Pod(Some(SharedVm(2, Some(VM.id))), Idle, {"p", "c"}, {"p", "c"}, 1, 0, 0)

  lemma Delivered() returns (s: System)
    ensures SystemReachable(0, s) && s.pool.serving && s.pool.sh == Shared([], map[VM.id := VM], 1, 4)
    ensures s.pool.tasks == map[2 := Checking, 3 := Popping(SHADOW)] && s.pods == map["p" := TWO]
  {
    s := WithShadow();
    s := Served(s, RunDone(1, true));
    assert s.pool.tasks == map[1 := Replying(P, VM), 2 := Checking, 3 := Popping(SHADOW)];
    s := Handled(s, Acquired("p"));
    assert {"p"} + {"c"} == {"p", "c"};
    assert s.pods["p"] == TWO;
  }

  lemma BothRunning() returns (s: System)
    ensures SystemReachable(0, s) && s.pool.serving && s.pool.sh == Shared([], map[VM.id := VM], 1, 4)
    ensures s.pool.tasks == map[3 := Popping(SHADOW)] && s.pods == map["p" := TWO]
  {
    s := Delivered();
    s := Pool(s, Control(2, Check));
  }

  lemma ShadowPopped() returns (s: System)
    ensures SystemReachable(0, s) && s.pool.serving && s.pool.sh == Shared([], map[VM.id := VM], 1, 4)
    ensures s.pool.tasks == map[3 := FetchCid(Serve(SHADOW), 4)] && s.pods == map["p" := TWO]
  {
    s := BothRunning();
    s := Pool(s, Acquire(3, Pop));
    s := Pool(s, Restore(3, Load));
  }

  lemma ShadowRestored() returns (s: System)
    ensures SystemReachable(0, s) && s.pool.serving && s.pool.sh == Shared([], map[VM.id := VM], 1, 5)
    ensures s.pool.tasks == map[3 := CountUp(SHADOW, VM2)] && s.pods == map["p" := TWO]
  {
    s := ShadowPopped();
    s := Pool(s, Restore(3, Fetch));
    s := Pool(s, Restore(3, Boot(true)));
  }

  lemma ShadowCounted() returns (s: System)
    ensures SystemReachable(0, s) && s.pool.serving && s.pool.sh == Shared([], map[VM.id := VM], 2, 5)
    ensures s.pool.tasks == map[3 := Inserting(SHADOW, VM2)] && s.pods == map["p" := TWO]
  {
    s := ShadowRestored();
    s := Pool(s, Acquire(3, AddCount));
  }

  lemma ShadowHolds() returns (s: System)
    ensures SystemReachable(0, s) && s.pool.serving && s.pool.sh == Shared([], map[VM.id := VM, VM2.id := VM2], 2, 5)
    ensures s.pool.tasks == map[3 := Holding(SHADOW, VM2)] && s.pods == map["p" := TWO]
  {
    s := ShadowCounted();
    s := Served(s, Grant(3));
  }

  /** The shadow publishes and gives its VM back. */
  lemma ShadowOver() returns (s: System)
    ensures SystemReachable(0, s) && s.pool.serving && s.pool.sh == Shared([], map[VM.id := VM], 1, 5)
    ensures s.pool.tasks == map[] && s.pods == map["p" := TWO]
  {
    s := ShadowHolds();
    s := Served(s, ShadowDone(3, true));
    s := Served(s, Withdraw(3));
    assert s.pool.sh.active == map[VM.id := VM] && s.pool.tasks == map[3 := CountDown(SHADOW, VM2.id)];
    s := Pool(s, Release(3, SubCount));
    s := Served(s, ShadowGone(3));
    assert s.pool.tasks == map[];
  }

  lemma Signalled() returns (s: System)
    ensures SystemReachable(0, s) && s.pool.serving && s.pool.sh == Shared([], map[VM.id := VM], 1, 5)
    ensures s.pool.tasks == map[] && s.pods == map["p" := TWO]
  {
    s := ShadowOver();
    s := Handled(s, KillInstance("p", "c", 9, 4));
  }

  lemma PodKilled() returns (s: System)
    ensures SystemReachable(0, s) && s.pool.serving && s.pool.sh == Shared([], map[VM.id := VM], 1, 5)
    ensures s.pool.tasks == map[4 := Removing(P, VM.id)]
    ensures s.pods == map["p" := TWO.(waiting := ForRelease(4), gave := 1)]
  {
    s := Signalled();
    s := Handled(s, KillInstance("p", "p", 15, 4));
  }

  /** A pod with a shadow beside it, from start to end without an error: the signal to the container only
      passes through, the kill of the sandbox releases the VM once, the shadow released its own, and
      nothing is left. */
  lemma CleanRun() returns (s: System)
    ensures SystemReachable(0, s) && s.pool.tasks == map[]
    ensures s.pool.sh == Shared([], map[], 0, 5)
    ensures s.pods == map["p" := TWO.(entry := None, gave := 1)]
  {
    s := PodKilled();
    s := Served(s, Withdraw(4));
    assert s.pool.sh.active == map[] && s.pool.tasks == map[4 := CountDown(P, VM.id)];
    s := Pool(s, Release(4, SubCount));
    s := Handled(s, ReleaseDone("p"));
    assert s.pool.tasks == map[];
  }

  // ---------------------------------------------------------------- a warm start

  const WARM: Vm := Vm(WarmVmId("k", 0), 3)

  lemma WarmAsked() returns (s: System)
    ensures SystemReachable(0, s) && s.pool.serving && s.pool.sh == Shared([], map[], 0, 3) && s.pool.warmNo == 0
    ensures s.pool.tasks == map[1 := WarmStart(P, "k")] && s.pods == map["p" := WAITING]
  {
    s := InitialSystem();
    assert SystemReaches(0, s, [], s);
    s := Pool(s, Control(0, Base(false)));
    s := Pool(s, Control(0, FillHead));
    assert s.pool.tasks == map[] && s.pool.sh == Shared([], map[], 0, 3) && s.pods == map[];
    s := Handled(s, StartSandbox("p"));
    s := Handled(s, FirstContainer("p", "c", 1, Some("k")));
    assert {"p"} + {"c"} == {"p", "c"};
    assert s.pods["p"] == WAITING;
  }

  lemma WarmRestored() returns (s: System)
    ensures SystemReachable(0, s) && s.pool.serving && s.pool.sh == Shared([], map[], 0, 4)
    ensures s.pool.tasks == map[1 := WarmNet(P, WARM)] && s.pods == map["p" := WAITING]
  {
    s := WarmAsked();
    s := Pool(s, Warm(1, Take(true)));
    assert s.pool.tasks == map[1 := WarmCid(P, "k", 0)] && s.pool.sh == Shared([], map[], 0, 3);
    s := Pool(s, Warm(1, TakeCid));
    assert s.pool.tasks == map[1 := WarmBoot(P, WARM)];
    s := Pool(s, Warm(1, Revive(true)));
  }

  /** A pod whose image has a snapshot gets a VM restored from it, under a warm id. */
  lemma WarmRun() returns (s: System)
    ensures SystemReachable(0, s) && s.pool.tasks == map[]
    ensures s.pool.sh == Shared([], map[WARM.id := WARM], 1, 4)
    ensures "p" in s.pods && s.pods["p"].entry == Some(SharedVm(2, Some(WARM.id)))
  {
    s := WarmRestored();
    s := Pool(s, Warm(1, Connect(true)));
    s := Pool(s, Acquire(1, AddCount));
    assert s.pool.tasks == map[1 := Inserting(P, WARM)] && s.pool.sh == Shared([], map[], 1, 4);
    s := Served(s, Grant(1));
    s := Handled(s, Acquired("p"));
    assert s.pool.tasks == map[];
  }
}
