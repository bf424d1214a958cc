/** Every run of the composed system is a run of the shim's handlers as they are written. */
module ShimRefinement {
  import opened Basics
  import opened PoolMachine
  import opened PoolInvariants
  import opened PodSystem
  import opened PodInvariants
  import opened ShimClass

  /** The pod has an entry and no release of it is under way. */
  predicate Registered(y: System, p: PodId) {
    p in y.pods && y.pods[p].entry.Some? && !y.pods[p].waiting.ForRelease?
  }

  predicate AgreeAt(vms: map<PodId, SharedVm>, y: System, p: PodId) {
    (p in vms <==> Registered(y, p)) && (p in vms ==> vms[p] == y.pods[p].entry.value)
  }

  /** The handlers' table holds exactly the registered pods, with the same counts and VMs. */
  ghost predicate Agree(vms: map<PodId, SharedVm>, y: System) {
    forall p :: AgreeAt(vms, y, p)
  }

  /** The call that a step of the composed system completes, or of which it sends the release request. */
  function CallOf(y: System, step: SystemStep): Option<Call>
    requires SystemEnabled(y, step)
  {
    match step
    case Daemon(_) => None
    case Shim(m) =>
      match m
      case StartSandbox(p) => Some(Sandbox(p))
      case FirstContainer(_, _, _, _) => None
      case Acquired(p) =>
        var pod := y.pods[p];
        Some(Container(p, pod.waiting.inst, true, Some(y.pool.tasks[pod.waiting.t].vm.id), true))
      case AcquireFailed(p) => Some(Container(p, y.pods[p].waiting.inst, true, None, false))
      case AddContainer(p, inst, ok) => Some(Container(p, inst, true, None, ok))
      case DeleteInstance(p, inst, _) => Some(Delete(p, inst))
      case KillInstance(p, inst, signal, _) => Some(Kill(p, inst, signal))
      case ReleaseDone(_) => None
  }

  function Answered(s: Shim, call: Option<Call>): Shim {
    if call.Some? then Handle(s, call.value).0 else s
  }

  lemma StartingAgrees(s: Shim, y: System, m: ShimStep)
    requires m.p in y.pods ==> PodInv(y.pods[m.p])
    requires AgreeAt(s.vms, y, m.p) && ShimEnabled(y, m)
    requires m.StartSandbox? || m.FirstContainer? || m.Acquired? || m.AcquireFailed? || m.AddContainer?
    ensures AgreeAt(Answered(s, CallOf(y, Shim(m))).vms, DoShim(y, m), m.p)
  {
  }

  lemma EndingAgrees(s: Shim, y: System, m: ShimStep)
    requires m.p in y.pods ==> PodInv(y.pods[m.p])
    requires AgreeAt(s.vms, y, m.p) && ShimEnabled(y, m)
    requires m.DeleteInstance? || m.KillInstance? || m.ReleaseDone?
    ensures AgreeAt(Answered(s, CallOf(y, Shim(m))).vms, DoShim(y, m), m.p)
  {
  }

  lemma OthersAgree(s: Shim, y: System, m: ShimStep, q: PodId)
    requires AgreeAt(s.vms, y, q) && ShimEnabled(y, m) && q != m.p
    ensures AgreeAt(Answered(s, CallOf(y, Shim(m))).vms, DoShim(y, m), q)
  {
    var y' := DoShim(y, m);
    assert (q in y'.pods <==> q in y.pods) && (q in y.pods ==> y'.pods[q] == y.pods[q]);
  }

  lemma ShimSimulates(s: Shim, y: System, m: ShimStep)
    requires PodsInv(y.pods) && Agree(s.vms, y) && ShimEnabled(y, m)
    ensures Agree(Answered(s, CallOf(y, Shim(m))).vms, DoShim(y, m))
  {
    assert AgreeAt(s.vms, y, m.p);
    if m.DeleteInstance? || m.KillInstance? || m.ReleaseDone? {
      EndingAgrees(s, y, m);
    } else {
      StartingAgrees(s, y, m);
    }
    forall q | q != m.p ensures AgreeAt(Answered(s, CallOf(y, Shim(m))).vms, DoShim(y, m), q) {
      OthersAgree(s, y, m, q);
    }
  }

  /** A pending release carries the id that the handler's request named. */
  lemma ReleaseMatches(s: Shim, y: System, m: ShimStep)
    requires PodsInv(y.pods) && Agree(s.vms, y) && ShimEnabled(y, m) && (m.DeleteInstance? || m.KillInstance?)
    ensures var s', y' := Answered(s, CallOf(y, Shim(m))), DoShim(y, m);
            y'.pods[m.p].waiting.ForRelease? ==>
              && m.p in s.vms && s'.sent == s.sent + [ReleaseOf(s.vms[m.p].vm)]
              && m.t in y'.pool.tasks && y'.pool.tasks[m.t] == ReleaseTask(m.p, s.vms[m.p].vm)
  {
    assert AgreeAt(s.vms, y, m.p);
  }

  function Now(y: System, step: SystemStep): seq<Call>
    requires SystemEnabled(y, step)
  {
    if CallOf(y, step).Some? then [CallOf(y, step).value] else []
  }

  /** The calls of a run, in order. */
  ghost function Calls(poolSize: nat, y: System, run: seq<SystemStep>): seq<Call>
    decreases |run|
  {
    if run == [] || !SystemEnabled(y, run[0]) then []
    else Now(y, run[0]) + Calls(poolSize, DoSystem(poolSize, y, run[0]), run[1..])
  }

  ghost predicate Holds(poolSize: nat, y: System) {
    Inv(poolSize, y.pool) && SystemInv(y)
  }

  lemma StepHolds(poolSize: nat, y: System, step: SystemStep)
    requires Holds(poolSize, y) && SystemEnabled(y, step)
    ensures Holds(poolSize, DoSystem(poolSize, y, step))
  {
    SystemStepKeeps(poolSize, y, step);
  }

  lemma InitialHolds(poolSize: nat)
    ensures Holds(poolSize, InitialSystem())
  {
    InitialInv(poolSize);
    assert StrandedIn(InitialSystem().owner) == {};
  }

  lemma Regroup(a: seq<Call>, b: seq<Call>, c: seq<Call>)
    ensures a + b + c == a + (b + c)
  {
  }

  lemma StepSimulates(poolSize: nat, calls: seq<Call>, y: System, step: SystemStep)
    requires PodsInv(y.pods) && Agree(After(calls).shim.vms, y) && SystemEnabled(y, step)
    ensures Agree(After(calls + Now(y, step)).shim.vms, DoSystem(poolSize, y, step))
  {
    var call := CallOf(y, step);
    if call.Some? {
      assert (calls + [call.value])[..|calls|] == calls;
    } else {
      assert calls + [] == calls;
    }
    if step.Shim? {
      ShimSimulates(After(calls).shim, y, step.m);
    } else {
      var y' := DoSystem(poolSize, y, step);
      assert y'.pods == y.pods;
      forall p ensures AgreeAt(After(calls).shim.vms, y', p) {
        assert AgreeAt(After(calls).shim.vms, y, p);
      }
    }
  }

  lemma {:induction false} RunSimulates(poolSize: nat, calls: seq<Call>, y: System, run: seq<SystemStep>, r: System)
    requires Holds(poolSize, y) && Agree(After(calls).shim.vms, y) && SystemReaches(poolSize, y, run, r)
    ensures Agree(After(calls + Calls(poolSize, y, run)).shim.vms, r)
    decreases |run|
  {
    if run == [] {
      assert calls + [] == calls;
    } else {
      var y' := DoSystem(poolSize, y, run[0]);
      StepSimulates(poolSize, calls, y, run[0]);
      StepHolds(poolSize, y, run[0]);
      RunSimulates(poolSize, calls + Now(y, run[0]), y', run[1..], r);
      Regroup(calls, Now(y, run[0]), Calls(poolSize, y', run[1..]));
    }
  }

  /** Every run of the composed system, seen from the shims, is a sequence of handler calls: run one
      after the other by the handlers as written, they leave exactly the table of its last state. */
  lemma SystemRefinesHandlers(poolSize: nat, run: seq<SystemStep>, r: System)
    requires SystemReaches(poolSize, InitialSystem(), run, r)
    ensures Agree(After(Calls(poolSize, InitialSystem(), run)).shim.vms, r)
  {
    InitialHolds(poolSize);
    RunSimulates(poolSize, [], InitialSystem(), run, r);
    assert [] + Calls(poolSize, InitialSystem(), run) == Calls(poolSize, InitialSystem(), run);
  }
}
