/** What the composed system guarantees in every run. */
module PodTheorems {
  import opened Basics
  import opened PoolMachine
  import opened PoolInvariants
  import opened PodSystem
  import opened PodInvariants

  ghost predicate SystemReachable(poolSize: nat, s: System) {
    exists run :: SystemReaches(poolSize, InitialSystem(), run, s)
  }

  lemma SystemReachableInv(poolSize: nat, s: System)
    requires SystemReachable(poolSize, s)
    ensures Inv(poolSize, s.pool) && SystemInv(s)
  {
    var run :| SystemReaches(poolSize, InitialSystem(), run, s);
    InitialInv(poolSize);
    assert StrandedIn(InitialSystem().owner) == {};
    SystemRunKeeps(poolSize, InitialSystem(), run, s);
  }

  /** With fresh ids no insert meets an occupied id, so the results below that ask for this hold. */
  lemma FreshIdsSuffice(poolSize: nat, s: System)
    requires SystemReachable(poolSize, s) && s.pool.clashes == 0
    ensures s.pool.overwritten == {}
  {
    SystemReachableInv(poolSize, s);
  }

  // -------------------------------------------------------- who holds what

  ghost function ShimHeld(s: System): set<VmId> {
    set p | p in s.pods && Keeps(s.pool.tasks, s.pods[p]) :: s.pods[p].entry.value.vm.value
  }

  ghost function TaskHeld(s: System, shadows: bool): set<VmId> {
    set t | t in s.pool.tasks && Held(s.pool.tasks[t]).Some? && s.pool.tasks[t].c.ShadowClient? == shadows
      :: Held(s.pool.tasks[t]).value
  }

  ghost function ShadowHeld(s: System): set<VmId> {
    TaskHeld(s, true)
  }

  ghost function PendingHeld(s: System): set<VmId> {
    TaskHeld(s, false)
  }

  ghost function OwnedByShims(owner: map<VmId, Owner>): set<VmId> {
    set id | id in owner && owner[id].ByShim?
  }

  ghost function OwnedByTasks(owner: map<VmId, Owner>, ts: set<TaskId>): set<VmId> {
    set id | id in owner && owner[id].ByTask? && owner[id].t in ts
  }

  ghost function Holders(tasks: map<TaskId, Task>, shadows: bool): set<TaskId> {
    set t | t in tasks && Held(tasks[t]).Some? && tasks[t].c.ShadowClient? == shadows
  }

  lemma ShimHeldIs(s: System)
    requires OwnerInv(s.pool.tasks, s.pods, s.owner)
    ensures ShimHeld(s) == OwnedByShims(s.owner)
  {
    forall id | id in OwnedByShims(s.owner) ensures id in ShimHeld(s) {
      assert s.pods[s.owner[id].p].entry.value.vm == Some(id);
    }
  }

  lemma TaskHeldIs(s: System, shadows: bool)
    requires OwnerInv(s.pool.tasks, s.pods, s.owner)
    ensures TaskHeld(s, shadows) == OwnedByTasks(s.owner, Holders(s.pool.tasks, shadows))
  {
    forall id | id in OwnedByTasks(s.owner, Holders(s.pool.tasks, shadows)) ensures id in TaskHeld(s, shadows) {
      assert Held(s.pool.tasks[s.owner[id].t]) == Some(id);
    }
  }

  lemma OwnersPartition(s: System)
    requires OwnerInv(s.pool.tasks, s.pods, s.owner)
    ensures s.owner.Keys == OwnedByShims(s.owner) + OwnedByTasks(s.owner, Holders(s.pool.tasks, true))
                            + OwnedByTasks(s.owner, Holders(s.pool.tasks, false)) + StrandedIn(s.owner)
    ensures OwnedByShims(s.owner) !! OwnedByTasks(s.owner, Holders(s.pool.tasks, true))
            !! OwnedByTasks(s.owner, Holders(s.pool.tasks, false)) !! StrandedIn(s.owner)
  {
  }

  /** The active map is the disjoint union of the VMs held by shims, by running shadows, by acquire
      requests that have not been answered to the shim yet, and those stranded by an error return
      after the acquire; one VM is stranded per such error. */
  lemma ActivePartition(poolSize: nat, s: System)
    requires SystemReachable(poolSize, s) && s.pool.overwritten == {}
    ensures s.pool.sh.active.Keys == ShimHeld(s) + ShadowHeld(s) + PendingHeld(s) + StrandedIn(s.owner)
    ensures ShimHeld(s) !! ShadowHeld(s) !! PendingHeld(s) !! StrandedIn(s.owner)
    ensures |StrandedIn(s.owner)| == s.errors
  {
    SystemReachableInv(poolSize, s);
    ShimHeldIs(s);
    TaskHeldIs(s, true);
    TaskHeldIs(s, false);
    OwnersPartition(s);
  }

  /** The step answers an acquire with an error although a VM was acquired, or ends a shadow that failed. */
  predicate IsError(step: SystemStep) {
    && step.Daemon?
    && ((step.d.RunDone? && step.d.ok == false) || (step.d.ShadowDone? && step.d.ok == false))
  }

  function ErrorSteps(run: seq<SystemStep>): nat
    decreases |run|
  {
    if run == [] then 0 else One(IsError(run[0])) + ErrorSteps(run[1..])
  }

  lemma ErrorStep(poolSize: nat, s: System, step: SystemStep)
    requires SystemEnabled(s, step)
    ensures DoSystem(poolSize, s, step).errors == s.errors + One(IsError(step))
  {
  }

  lemma {:induction false} ErrorRun(poolSize: nat, s: System, run: seq<SystemStep>, r: System)
    requires SystemReaches(poolSize, s, run, r)
    ensures r.errors == s.errors + ErrorSteps(run)
    decreases |run|
  {
    if run != [] {
      ErrorStep(poolSize, s, run[0]);
      ErrorRun(poolSize, DoSystem(poolSize, s, run[0]), run[1..], r);
    }
  }

  /** Stranded VMs are as many as the steps of the run that fail after a successful acquire. */
  lemma StrandedExact(poolSize: nat, run: seq<SystemStep>, s: System)
    requires SystemReaches(poolSize, InitialSystem(), run, s) && s.pool.overwritten == {}
    ensures |StrandedIn(s.owner)| == ErrorSteps(run)
  {
    ErrorRun(poolSize, InitialSystem(), run, s);
    SystemReachableInv(poolSize, s);
  }

  /** Once every pod is gone and every task has ended, the active map and the counter hold exactly one VM
      for each step of the run that failed after a successful acquire: without such steps, nothing. */
  lemma NoLeak(poolSize: nat, run: seq<SystemStep>, s: System)
    requires SystemReaches(poolSize, InitialSystem(), run, s) && s.pool.overwritten == {}
    requires s.pool.tasks == map[] && forall p :: p in s.pods ==> s.pods[p].entry.None?
    ensures s.pool.sh.active.Keys == StrandedIn(s.owner)
    ensures |s.pool.sh.active| == s.pool.sh.count == ErrorSteps(run)
    ensures ErrorSteps(run) == 0 ==> s.pool.sh.active == map[] && s.pool.sh.count == 0
  {
    StrandedExact(poolSize, run, s);
    AllOwned(poolSize, s);
  }

  lemma AllOwned(poolSize: nat, s: System)
    requires SystemReachable(poolSize, s) && s.pool.overwritten == {}
    requires s.pool.tasks == map[] && forall p :: p in s.pods ==> s.pods[p].entry.None?
    ensures s.pool.sh.active.Keys == StrandedIn(s.owner) && |s.pool.sh.active| == s.pool.sh.count
  {
    SystemReachableInv(poolSize, s);
    ActivePartition(poolSize, s);
    assert ShimHeld(s) == {} && TaskHeld(s, true) == {} && TaskHeld(s, false) == {};
    assert Where(s.pool.tasks, InFlight) == {};
    assert |s.pool.sh.active| == |s.pool.sh.active.Keys|;
  }

  lemma RemovingIsOwned(tasks: map<TaskId, Task>, t: TaskId, pods: map<PodId, Pod>, owner: map<VmId, Owner>)
    requires RpcInv(tasks, pods) && OwnerInv(tasks, pods, owner) && t in tasks && tasks[t].Removing?
    ensures tasks[t].id in owner
  {
    if tasks[t].c.PodClient? {
      assert RoleOf(tasks[t]).client == Some(tasks[t].c);
      assert Keeps(tasks, pods[tasks[t].c.pod]);
    } else {
      assert Held(tasks[t]) == Some(tasks[t].id);
    }
  }

  /** A release never misses: whenever a handler or shadow is about to remove an id, it is active. */
  lemma ReleaseHits(poolSize: nat, s: System, t: TaskId)
    requires SystemReachable(poolSize, s) && s.pool.overwritten == {}
    requires t in s.pool.tasks && s.pool.tasks[t].Removing?
    ensures s.pool.tasks[t].id in s.pool.sh.active
  {
    SystemReachableInv(poolSize, s);
    RemovingIsOwned(s.pool.tasks, t, s.pods, s.owner);
  }

  // -------------------------------------------------------- one pod's life

  /** A pod receives at most one VM, and by the time it is gone has asked for exactly that VM's
      release, once. As long as it is registered, its count is the number of its live instances less
      the deletes of instances that were not live, and at least 1 until its release. */
  lemma PodLife(poolSize: nat, s: System, p: PodId)
    requires SystemReachable(poolSize, s) && p in s.pods
    ensures s.pods[p].entry.Some? ==> s.pods[p].entry.value.count == |s.pods[p].live| - s.pods[p].strays
    ensures s.pods[p].entry.Some? && !s.pods[p].waiting.ForRelease? ==> s.pods[p].entry.value.count >= 1 && s.pods[p].gave == 0
    ensures s.pods[p].gave <= s.pods[p].got <= 1
    ensures s.pods[p].entry.None? ==> s.pods[p].gave == s.pods[p].got
    ensures s.pods[p].entry.Some? ==> (s.pods[p].got == 1 <==> s.pods[p].entry.value.vm.Some?)
  {
    SystemReachableInv(poolSize, s);
    assert PodInv(s.pods[p]);
  }

  /** Exactly when a delete, of a live instance or not, gives up the pod: its entry is dropped if and
      only if the live instances outnumber the earlier stray deletes by one, and a VM is released if
      and only if the pod then also has one. A registered pod's live instances always outnumber them. */
  lemma DeleteExact(poolSize: nat, s: System, p: PodId, inst: InstanceId, t: TaskId)
    requires SystemReachable(poolSize, s) && ShimEnabled(s, DeleteInstance(p, inst, t)) && s.pods[p].entry.Some?
    ensures var s', pod := DoShim(s, DeleteInstance(p, inst, t)), s.pods[p];
            && |pod.live| > pod.strays
            && s'.pods[p].live == pod.live - {inst}
            && (s'.pods[p].waiting.ForRelease? <==> |pod.live| - pod.strays == 1)
            && (t in s'.pool.tasks && s'.pool.tasks[t].Removing? <==> |pod.live| - pod.strays == 1 && pod.entry.value.vm.Some?)
            && (t in s'.pool.tasks && s'.pool.tasks[t].Removing? ==> Some(s'.pool.tasks[t].id) == pod.entry.value.vm)
  {
    SystemReachableInv(poolSize, s);
    assert PodInv(s.pods[p]);
  }

  lemma OneLive(live: set<InstanceId>)
    ensures |live| == 1 <==> exists i :: live == {i}
  {
    if |live| == 1 {
      var i :| i in live;
      assert |live - {i}| == 0;
      assert live == {i};
    }
  }

  /** The delete of a live instance asks for the release exactly when the other live instances are as
      many as the earlier stray deletes; without those, exactly when no other instance lives. */
  lemma DeleteReleasesLast(poolSize: nat, s: System, p: PodId, inst: InstanceId, t: TaskId)
    requires SystemReachable(poolSize, s) && ShimEnabled(s, DeleteInstance(p, inst, t)) && s.pods[p].entry.Some?
    requires inst in s.pods[p].live
    ensures var s', pod := DoShim(s, DeleteInstance(p, inst, t)), s.pods[p];
            && (s'.pods[p].waiting.ForRelease? <==> |pod.live - {inst}| == pod.strays)
            && (pod.strays == 0 ==> (s'.pods[p].waiting.ForRelease? <==> pod.live == {inst}))
  {
    DeleteExact(poolSize, s, p, inst, t);
    OneLive(s.pods[p].live);
    assert |s.pods[p].live - {inst}| == |s.pods[p].live| - 1;
  }

  /** The delete of an instance that is not live, say because its start failed, leaves all live
      instances but drops the pod's entry exactly when they are one more than the earlier stray
      deletes, and takes away their VM exactly when they also have one; if it is the first stray
      delete, exactly when a single instance lives. */
  lemma UnstartedDelete(poolSize: nat, s: System, p: PodId, inst: InstanceId, t: TaskId)
    requires SystemReachable(poolSize, s) && ShimEnabled(s, DeleteInstance(p, inst, t)) && s.pods[p].entry.Some?
    requires inst !in s.pods[p].live
    ensures var s', pod := DoShim(s, DeleteInstance(p, inst, t)), s.pods[p];
            && s'.pods[p].live == pod.live != {}
            && (s'.pods[p].waiting.ForRelease? <==> |pod.live| == pod.strays + 1)
            && (t in s'.pool.tasks && s'.pool.tasks[t].Removing? <==> pod.entry.value.vm.Some? && |pod.live| == pod.strays + 1)
            && (pod.strays == 0 ==> (s'.pods[p].waiting.ForRelease? <==> exists i :: pod.live == {i}))
  {
    DeleteExact(poolSize, s, p, inst, t);
    assert s.pods[p].live - {inst} == s.pods[p].live;
    OneLive(s.pods[p].live);
  }

  /** A delete takes the VM from under an instance that goes on living if and only if the pod has a VM
      and the live instances outnumber the earlier stray deletes by exactly one, and it is not itself
      the delete of the only live instance. */
  lemma TakenFromLive(poolSize: nat, s: System, p: PodId, inst: InstanceId, t: TaskId)
    requires SystemReachable(poolSize, s) && ShimEnabled(s, DeleteInstance(p, inst, t)) && s.pods[p].entry.Some?
    ensures var s', pod := DoShim(s, DeleteInstance(p, inst, t)), s.pods[p];
            t in s'.pool.tasks && s'.pool.tasks[t].Removing? && s'.pods[p].live != {}
            <==> pod.entry.value.vm.Some? && |pod.live| - pod.strays == 1 && pod.live != {inst}
  {
    DeleteExact(poolSize, s, p, inst, t);
    var live := s.pods[p].live;
    assert live != {};
    assert live - {inst} == {} <==> live == {inst};
  }

  /** Exactly which kills give up a pod: SIGKILL or SIGTERM to the sandbox itself, while it is registered;
      its VM is released if it has one. Every other kill changes nothing. */
  lemma KillExact(poolSize: nat, s: System, p: PodId, inst: InstanceId, signal: nat, t: TaskId)
    requires SystemReachable(poolSize, s) && ShimEnabled(s, KillInstance(p, inst, signal, t))
    ensures var s', pod := DoShim(s, KillInstance(p, inst, signal, t)), s.pods[p];
            var ends := pod.entry.Some? && inst == p && (signal == 9 || signal == 15);
            && (!ends ==> s' == s)
            && (ends <==> pod.entry.Some? && (s'.pods[p].entry.None? || s'.pods[p].waiting.ForRelease?))
            && (t in s'.pool.tasks && s'.pool.tasks[t].Removing? <==> ends && pod.entry.value.vm.Some?)
            && (t in s'.pool.tasks && s'.pool.tasks[t].Removing? ==> Some(s'.pool.tasks[t].id) == pod.entry.value.vm)
  {
    SystemReachableInv(poolSize, s);
    assert PodInv(s.pods[p]);
  }
}
