/** What a run of the pool never takes back: the VMs it recorded, and their release. */
module PoolHistory {
  import opened Basics
  import opened PoolMachine
  import opened PoolInvariants
  import opened PoolTheorems

  /** Records keep their VM, a released VM stays released, and only the next CID can be new. */
  ghost predicate Extends(before: Ledger, after: Ledger, nextCid: nat) {
    && (forall c :: c in before ==> c in after && after[c].vm == before[c].vm)
    && (forall c :: c in before && before[c].place.Released? ==> after[c].place.Released?)
    && (forall c :: c in after && c !in before ==> c == nextCid)
  }

  /** A record is changed only for a VM that is ready, active or with a task. */
  lemma Placing(s: State, vm: Vm, place: Place)
    requires vm.cid in s.ledger ==> s.ledger[vm.cid].vm == vm && (s.ledger[vm.cid].place.Released? ==> place.Released?)
    requires vm.cid !in s.ledger ==> vm.cid == s.sh.nextCid
    ensures Extends(s.ledger, s.ledger[vm.cid := Record(vm, place)], s.sh.nextCid)
  {
  }

  lemma RestoreExtends(s: State, t: TaskId, x: RestoreStep)
    requires LedgerInv(s) && t in s.tasks && RestoreEnabled(s.tasks[t], x)
    ensures Extends(s.ledger, DoRestore(s, t, x).ledger, s.sh.nextCid)
  {
    match x
    case Load =>
    case Fetch => Placing(s, Vm(PoolVmId(s.tasks[t].n), s.sh.nextCid), InTask(t));
    case Boot(ok) =>
      assert Carried(s.tasks[t]) == Some(s.tasks[t].vm);
      Placing(s, s.tasks[t].vm, Failed);
    case Push =>
      assert Carried(s.tasks[t]) == Some(s.tasks[t].vm);
      Placing(s, s.tasks[t].vm, InReady);
  }

  lemma InsertExtends(s: State, t: TaskId)
    requires LedgerInv(s) && t in s.tasks && s.tasks[t].Inserting?
    ensures Extends(s.ledger, DoAcquire(s, t, Insert).ledger, s.sh.nextCid)
  {
    var vm := s.tasks[t].vm;
    assert Carried(s.tasks[t]) == Some(vm);
    var mid := Displaced(s, vm.id);
    if vm.id in s.sh.active {
      assert Recorded(s.ledger, s.sh.active[vm.id], InActive);
      Placing(s, s.sh.active[vm.id], Overwritten);
    }
    assert Recorded(s.ledger, vm, InTask(t));
    Placing(mid, vm, InActive);
  }

  lemma AcquireExtends(s: State, t: TaskId, x: AcquireStep)
    requires LedgerInv(s) && t in s.tasks && AcquireEnabled(s.tasks[t], x)
    ensures Extends(s.ledger, DoAcquire(s, t, x).ledger, s.sh.nextCid)
  {
    match x
    case Pop =>
      if s.sh.ready != [] {
        assert Recorded(s.ledger, Last(s.sh.ready), InReady);
        Placing(s, Last(s.sh.ready), InTask(t));
      }
    case AddCount =>
    case Insert => InsertExtends(s, t);
  }

  lemma ReleaseExtends(s: State, t: TaskId, x: ReleaseStep)
    requires LedgerInv(s) && t in s.tasks && ReleaseEnabled(s.tasks[t], x)
    ensures Extends(s.ledger, DoRelease(s, t, x).ledger, s.sh.nextCid)
  {
    if x.Remove? && s.tasks[t].id in s.sh.active {
      assert Recorded(s.ledger, s.sh.active[s.tasks[t].id], InActive);
      Placing(s, s.sh.active[s.tasks[t].id], Released);
    }
  }

  lemma WarmExtends(s: State, t: TaskId, x: WarmStep)
    requires LedgerInv(s) && t in s.tasks && WarmEnabled(s.tasks[t], x)
    ensures Extends(s.ledger, DoWarm(s, t, x).ledger, s.sh.nextCid)
  {
    match x
    case Take(_) =>
    case TakeCid => Placing(s, Vm(WarmVmId(s.tasks[t].key, s.tasks[t].no), s.sh.nextCid), InTask(t));
    case Revive(_) =>
      assert Carried(s.tasks[t]) == Some(s.tasks[t].vm);
      Placing(s, s.tasks[t].vm, Failed);
    case Connect(_) =>
      assert Carried(s.tasks[t]) == Some(s.tasks[t].vm);
      Placing(s, s.tasks[t].vm, Orphaned);
  }

  lemma StepExtends(poolSize: nat, s: State, step: Step)
    requires LedgerInv(s) && Enabled(s, step)
    ensures Extends(s.ledger, Do(poolSize, s, step).ledger, s.sh.nextCid)
  {
    match step
    case Control(_, _) =>
    case Restore(t, x) => RestoreExtends(s, t, x);
    case Acquire(t, x) => AcquireExtends(s, t, x);
    case Release(t, x) => ReleaseExtends(s, t, x);
    case Warm(t, x) => WarmExtends(s, t, x);
    case Handler(_, _) =>
  }

  // ------------------------------------------------------------- released for good

  lemma {:induction false} StaysReleased(poolSize: nat, s: State, run: seq<Step>, r: State, c: nat)
    requires Inv(poolSize, s) && Reaches(poolSize, s, run, r) && c in s.ledger && s.ledger[c].place.Released?
    ensures c in r.ledger && r.ledger[c].vm == s.ledger[c].vm && r.ledger[c].place.Released?
    decreases |run|
  {
    if run != [] {
      StepExtends(poolSize, s, run[0]);
      StepKeeps(poolSize, s, run[0]);
      StaysReleased(poolSize, Do(poolSize, s, run[0]), run[1..], r, c);
    }
  }

  /** With fresh ids, a recorded VM that is not in the active map has an id that is not. */
  lemma OnlyItsId(s: State, c: nat)
    requires LedgerInv(s) && IdInv(s) && s.clashes == 0 && c in s.ledger && !s.ledger[c].place.InActive?
    ensures s.ledger[c].vm.id !in s.sh.active
  {
    var id := s.ledger[c].vm.id;
    assert id in s.sh.active ==> Recorded(s.ledger, s.sh.active[id], InActive);
  }

  /** Once a VM is released it stays released, and with fresh ids its id is never active again in any
      continuation; so another release of that id, whenever it comes, changes neither the active map
      nor the counter. */
  lemma SecondRelease(poolSize: nat, s: State, c: nat, run: seq<Step>, r: State, t: TaskId)
    requires Reachable(poolSize, s) && c in s.ledger && s.ledger[c].place.Released?
    requires Reaches(poolSize, s, run, r) && r.clashes == 0
    ensures s.ledger[c].vm.id !in r.sh.active
    ensures t in r.tasks && r.tasks[t].Removing? && r.tasks[t].id == s.ledger[c].vm.id ==>
              DoRelease(r, t, Remove).sh == r.sh && DoRelease(r, t, Remove).tasks[t].Finished?
  {
    ReachableInv(poolSize, s);
    RunKeeps(poolSize, s, run, r);
    StaysReleased(poolSize, s, run, r, c);
    OnlyItsId(r, c);
  }

  // ---------------------------------------------------------------- shared ids

  predicate Clashing(vm: Vm) {
    vm.id.PoolVmId? && vm.id.n != vm.cid
  }

  ghost function ClashingCids(ledger: Ledger): set<nat> {
    set c | c in ledger && Clashing(ledger[c].vm)
  }

  ghost predicate ClashInv(s: State) {
    s.clashes == |ClashingCids(s.ledger)|
  }

  lemma ClashesGrow(l: Ledger, l': Ledger, c: nat)
    requires Extends(l, l', c) && c !in l
    ensures ClashingCids(l') == ClashingCids(l) + (if c in l' && Clashing(l'[c].vm) then {c} else {})
  {
  }

  lemma ClashKeeps(poolSize: nat, s: State, step: Step)
    requires LedgerInv(s) && ClashInv(s) && Enabled(s, step)
    ensures ClashInv(Do(poolSize, s, step))
  {
    StepExtends(poolSize, s, step);
    ClashesGrow(s.ledger, Do(poolSize, s, step).ledger, s.sh.nextCid);
    if step.Restore? && step.r.Fetch? && s.tasks[step.t].n != s.sh.nextCid {
      assert Do(poolSize, s, step).clashes == s.clashes + 1;
    } else {
      NewCid(poolSize, s, step);
    }
  }

  lemma NewCid(poolSize: nat, s: State, step: Step)
    requires LedgerInv(s) && Enabled(s, step) && !(step.Restore? && step.r.Fetch? && s.tasks[step.t].n != s.sh.nextCid)
    ensures Do(poolSize, s, step).clashes == s.clashes
    ensures var l := Do(poolSize, s, step).ledger; s.sh.nextCid in l ==> !Clashing(l[s.sh.nextCid].vm)
  {
    StepExtends(poolSize, s, step);
    match step
    case Restore(t, x) => RestoreCid(s, t, x);
    case Acquire(t, x) => AcquireCid(s, t, x);
    case Release(t, x) => ReleaseExtends(s, t, x);
    case Warm(t, x) => WarmCidOk(s, t, x);
    case Control(_, _) =>
    case Handler(_, _) =>
  }

  lemma RestoreCid(s: State, t: TaskId, x: RestoreStep)
    requires LedgerInv(s) && t in s.tasks && RestoreEnabled(s.tasks[t], x)
    requires x.Fetch? ==> s.tasks[t].n == s.sh.nextCid
    ensures DoRestore(s, t, x).clashes == s.clashes
    ensures var l := DoRestore(s, t, x).ledger; s.sh.nextCid in l ==> !Clashing(l[s.sh.nextCid].vm)
  {
    if x.Boot? || x.Push? {
      assert Carried(s.tasks[t]) == Some(s.tasks[t].vm);
    }
  }

  lemma AcquireCid(s: State, t: TaskId, x: AcquireStep)
    requires LedgerInv(s) && t in s.tasks && AcquireEnabled(s.tasks[t], x)
    ensures DoAcquire(s, t, x).clashes == s.clashes && s.sh.nextCid !in DoAcquire(s, t, x).ledger
  {
    if x.Pop? && s.sh.ready != [] {
      assert Recorded(s.ledger, Last(s.sh.ready), InReady);
    } else if x.Insert? {
      assert Carried(s.tasks[t]) == Some(s.tasks[t].vm);
    }
  }

  lemma WarmCidOk(s: State, t: TaskId, x: WarmStep)
    requires LedgerInv(s) && t in s.tasks && WarmEnabled(s.tasks[t], x)
    ensures DoWarm(s, t, x).clashes == s.clashes
    ensures var l := DoWarm(s, t, x).ledger; s.sh.nextCid in l ==> !Clashing(l[s.sh.nextCid].vm)
  {
    if x.Revive? || x.Connect? {
      assert Carried(s.tasks[t]) == Some(s.tasks[t].vm);
    }
  }

  lemma {:induction false} ClashRunKeeps(poolSize: nat, s: State, run: seq<Step>, r: State)
    requires Inv(poolSize, s) && ClashInv(s) && Reaches(poolSize, s, run, r)
    ensures ClashInv(r)
    decreases |run|
  {
    if run != [] {
      ClashKeeps(poolSize, s, run[0]);
      StepKeeps(poolSize, s, run[0]);
      ClashRunKeeps(poolSize, Do(poolSize, s, run[0]), run[1..], r);
    }
  }

  /** The overtaken id reads of a run are exactly its pool VMs whose id number is not their CID; none
      was overtaken if and only if every pool VM has its CID as id number. */
  lemma ClashesExact(poolSize: nat, s: State)
    requires Reachable(poolSize, s)
    ensures s.clashes == |ClashingCids(s.ledger)|
    ensures s.clashes == 0 <==> forall c :: c in s.ledger && s.ledger[c].vm.id.PoolVmId? ==> s.ledger[c].vm.id.n == c
  {
    ReachableInv(poolSize, s);
    var run :| Reaches(poolSize, InitialState(), run, s);
    InitialInv(poolSize);
    assert ClashingCids(InitialState().ledger) == {};
    ClashRunKeeps(poolSize, InitialState(), run, s);
    if s.clashes == 0 {
      forall c | c in s.ledger && s.ledger[c].vm.id.PoolVmId? ensures s.ledger[c].vm.id.n == c {
        assert c !in ClashingCids(s.ledger);
      }
    } else {
      var c :| c in ClashingCids(s.ledger);
    }
  }

  // ------------------------------------------------------------- CIDs and their VMs

  /** Base snapshots made in the run. */
  function Bases(run: seq<Step>): nat
    decreases |run|
  {
    if run == [] then 0 else One(run[0].Control? && run[0].c == Base(true)) + Bases(run[1..])
  }

  /** A step allocates no CID and records no VM, or allocates the next one and records its VM. */
  ghost predicate InStep(s: State, s': State) {
    || (s'.sh.nextCid == s.sh.nextCid && s'.ledger.Keys == s.ledger.Keys)
    || (s'.sh.nextCid == s.sh.nextCid + 1 && s'.ledger.Keys == s.ledger.Keys + {s.sh.nextCid})
  }

  lemma RestoreInStep(s: State, t: TaskId, x: RestoreStep)
    requires LedgerInv(s) && t in s.tasks && RestoreEnabled(s.tasks[t], x)
    ensures InStep(s, DoRestore(s, t, x))
  {
    if x.Boot? || x.Push? {
      assert Carried(s.tasks[t]) == Some(s.tasks[t].vm);
    }
  }

  lemma AcquireInStep(s: State, t: TaskId, x: AcquireStep)
    requires LedgerInv(s) && t in s.tasks && AcquireEnabled(s.tasks[t], x)
    ensures InStep(s, DoAcquire(s, t, x))
  {
    if x.Pop? && s.sh.ready != [] {
      assert Recorded(s.ledger, Last(s.sh.ready), InReady);
    } else if x.Insert? {
      assert Carried(s.tasks[t]) == Some(s.tasks[t].vm);
    }
  }

  lemma ReleaseInStep(s: State, t: TaskId, x: ReleaseStep)
    requires LedgerInv(s) && t in s.tasks && ReleaseEnabled(s.tasks[t], x)
    ensures InStep(s, DoRelease(s, t, x))
  {
    if x.Remove? && s.tasks[t].id in s.sh.active {
      assert Recorded(s.ledger, s.sh.active[s.tasks[t].id], InActive);
    }
  }

  lemma WarmInStep(s: State, t: TaskId, x: WarmStep)
    requires LedgerInv(s) && t in s.tasks && WarmEnabled(s.tasks[t], x)
    ensures InStep(s, DoWarm(s, t, x))
  {
    if x.Revive? || x.Connect? {
      assert Carried(s.tasks[t]) == Some(s.tasks[t].vm);
    }
  }

  predicate MakesBase(step: Step) {
    step.Control? && step.c == Base(true)
  }

  lemma StepInStep(poolSize: nat, s: State, step: Step)
    requires LedgerInv(s) && Enabled(s, step) && !MakesBase(step)
    ensures InStep(s, Do(poolSize, s, step))
  {
    match step
    case Control(_, _) =>
    case Restore(t, x) => RestoreInStep(s, t, x);
    case Acquire(t, x) => AcquireInStep(s, t, x);
    case Release(t, x) => ReleaseInStep(s, t, x);
    case Warm(t, x) => WarmInStep(s, t, x);
    case Handler(_, _) =>
  }

  /** Every CID handed out so far is that of a recorded VM, except that of the base VM, if one was made. */
  ghost predicate CoveredBy(cids: set<nat>, nextCid: nat, bases: nat) {
    && bases <= 1 && nextCid == FIRST_CID + |cids| + bases
    && (forall c :: FIRST_CID <= c < nextCid <==> c in cids || (bases == 1 && c == FIRST_CID))
    && (bases == 1 ==> FIRST_CID !in cids)
  }

  ghost predicate Covered(s: State, bases: nat) {
    CoveredBy(s.ledger.Keys, s.sh.nextCid, bases)
  }

  ghost predicate StartInv(s: State, bases: nat) {
    forall t :: t in s.tasks && s.tasks[t].Starting? ==> s.sh.nextCid == FIRST_CID && bases == 0
  }

  lemma CoveredMore(cids: set<nat>, nextCid: nat, bases: nat)
    requires CoveredBy(cids, nextCid, bases)
    ensures CoveredBy(cids + {nextCid}, nextCid + 1, bases)
  {
    assert nextCid !in cids;
    assert |cids + {nextCid}| == |cids| + 1;
  }

  lemma CoveredGrows(s: State, s': State, bases: nat)
    requires Covered(s, bases) && InStep(s, s')
    ensures Covered(s', bases)
  {
    CoveredMore(s.ledger.Keys, s.sh.nextCid, bases);
  }

  lemma BaseCovers(s: State, t: TaskId, poolSize: nat)
    requires LedgerInv(s) && Covered(s, 0) && StartInv(s, 0) && t in s.tasks && s.tasks[t].Starting?
    ensures Covered(DoControl(poolSize, s, t, Base(true)), 1)
  {
    assert s.sh.nextCid == 3;
    assert s.ledger.Keys == {};
  }

  /** Every starting task was one before. */
  ghost predicate NoNewStart(s: State, s': State) {
    forall t :: t in s'.tasks && s'.tasks[t].Starting? ==> t in s.tasks && s.tasks[t].Starting?
  }

  lemma ControlNoStart(poolSize: nat, s: State, t: TaskId, x: ControlStep)
    requires t in s.tasks && ControlEnabled(s.tasks[t], x)
    ensures NoNewStart(s, DoControl(poolSize, s, t, x))
  {
  }

  lemma RestoreNoStart(s: State, t: TaskId, x: RestoreStep)
    requires t in s.tasks && RestoreEnabled(s.tasks[t], x)
    ensures NoNewStart(s, DoRestore(s, t, x))
  {
  }

  lemma AcquireNoStart(s: State, t: TaskId, x: AcquireStep)
    requires t in s.tasks && AcquireEnabled(s.tasks[t], x)
    ensures NoNewStart(s, DoAcquire(s, t, x))
  {
  }

  lemma WarmNoStart(s: State, t: TaskId, x: WarmStep)
    requires t in s.tasks && WarmEnabled(s.tasks[t], x)
    ensures NoNewStart(s, DoWarm(s, t, x))
  {
  }

  lemma StepNoStart(poolSize: nat, s: State, step: Step)
    requires Enabled(s, step)
    ensures NoNewStart(s, Do(poolSize, s, step))
  {
    match step
    case Control(t, x) => ControlNoStart(poolSize, s, t, x);
    case Restore(t, x) => RestoreNoStart(s, t, x);
    case Acquire(t, x) => AcquireNoStart(s, t, x);
    case Warm(t, x) => WarmNoStart(s, t, x);
    case Release(_, _) =>
    case Handler(_, _) =>
  }

  lemma CoveredStep(poolSize: nat, s: State, step: Step, bases: nat)
    requires Inv(poolSize, s) && Enabled(s, step) && Covered(s, bases) && StartInv(s, bases)
    ensures var b := bases + One(MakesBase(step)); Covered(Do(poolSize, s, step), b) && StartInv(Do(poolSize, s, step), b)
  {
    var s' := Do(poolSize, s, step);
    if MakesBase(step) {
      BaseCovers(s, step.t, poolSize);
    } else {
      StepInStep(poolSize, s, step);
      CoveredGrows(s, s', bases);
    }
    StepNoStart(poolSize, s, step);
    forall t | t in s'.tasks && s'.tasks[t].Starting? ensures s'.sh.nextCid == FIRST_CID && bases + One(MakesBase(step)) == 0 {
      assert t in s.tasks && s.tasks[t].Starting?;
      assert s.tasks.Keys == {0};
    }
  }

  lemma {:induction false} CoveredRun(poolSize: nat, s: State, run: seq<Step>, r: State, bases: nat)
    requires Inv(poolSize, s) && Covered(s, bases) && StartInv(s, bases) && Reaches(poolSize, s, run, r)
    ensures Covered(r, bases + Bases(run))
    decreases |run|
  {
    if run != [] {
      CoveredStep(poolSize, s, run[0], bases);
      StepKeeps(poolSize, s, run[0]);
      CoveredRun(poolSize, Do(poolSize, s, run[0]), run[1..], r, bases + One(MakesBase(run[0])));
    }
  }

  /** Over every run: at most one base snapshot is made; its VM has CID 3, which no other VM ever has; and
      every other CID handed out is that of exactly one pool or warm VM. */
  lemma CidsExact(poolSize: nat, run: seq<Step>, s: State)
    requires Reaches(poolSize, InitialState(), run, s)
    ensures Bases(run) <= 1 && |s.issued| == |s.ledger| + Bases(run)
    ensures Bases(run) == 1 ==> 3 in s.issued && 3 !in s.ledger
    ensures forall c :: c in s.issued <==> c in s.ledger || (Bases(run) == 1 && c == 3)
  {
    InitialInv(poolSize);
    RunKeeps(poolSize, InitialState(), run, s);
    CoveredRun(poolSize, InitialState(), run, s, 0);
    CidsListed(s);
    assert |s.ledger| == |s.ledger.Keys|;
  }

  lemma CidsListed(s: State)
    requires CidInv(s)
    ensures |s.issued| == s.sh.nextCid - FIRST_CID
    ensures forall c :: c in s.issued <==> FIRST_CID <= c < s.sh.nextCid
  {
    forall c ensures c in s.issued <==> FIRST_CID <= c < s.sh.nextCid {
      if FIRST_CID <= c < s.sh.nextCid {
        assert s.issued[c - FIRST_CID] == c;
      }
    }
  }

  // -------------------------------------------------------------------- grants

  /** Whoever was handed to a caller is in the log of grants. */
  ghost predicate AllGrantsLogged(s: State) {
    forall c :: c in s.ledger && Granted(s.ledger[c].place) ==> s.ledger[c].vm in s.granted
  }

  lemma LoggedStep(poolSize: nat, s: State, step: Step)
    requires LedgerInv(s) && AllGrantsLogged(s) && Enabled(s, step)
    ensures AllGrantsLogged(Do(poolSize, s, step))
  {
    match step
    case Acquire(t, x) => LoggedAcquire(s, t, x);
    case Release(t, x) => LoggedRelease(s, t, x);
    case Restore(t, x) => LoggedRestore(s, t, x);
    case Warm(t, x) => LoggedWarm(s, t, x);
    case Control(_, _) =>
    case Handler(_, _) =>
  }

  lemma LoggedRestore(s: State, t: TaskId, x: RestoreStep)
    requires AllGrantsLogged(s) && t in s.tasks && RestoreEnabled(s.tasks[t], x)
    ensures AllGrantsLogged(DoRestore(s, t, x))
  {
    assert DoRestore(s, t, x).granted == s.granted;
  }

  lemma LoggedWarm(s: State, t: TaskId, x: WarmStep)
    requires AllGrantsLogged(s) && t in s.tasks && WarmEnabled(s.tasks[t], x)
    ensures AllGrantsLogged(DoWarm(s, t, x))
  {
    assert DoWarm(s, t, x).granted == s.granted;
  }

  lemma LoggedAcquire(s: State, t: TaskId, x: AcquireStep)
    requires LedgerInv(s) && AllGrantsLogged(s) && t in s.tasks && AcquireEnabled(s.tasks[t], x)
    ensures AllGrantsLogged(DoAcquire(s, t, x))
  {
    if x.Insert? {
      var vm := s.tasks[t].vm;
      assert vm.id in s.sh.active ==> Recorded(s.ledger, s.sh.active[vm.id], InActive);
      assert vm in DoAcquire(s, t, x).granted;
    }
  }

  lemma LoggedRelease(s: State, t: TaskId, x: ReleaseStep)
    requires LedgerInv(s) && AllGrantsLogged(s) && t in s.tasks && ReleaseEnabled(s.tasks[t], x)
    ensures AllGrantsLogged(DoRelease(s, t, x))
  {
    if x.Remove? && s.tasks[t].id in s.sh.active {
      assert Recorded(s.ledger, s.sh.active[s.tasks[t].id], InActive);
    }
  }

  lemma {:induction false} LoggedRun(poolSize: nat, s: State, run: seq<Step>, r: State)
    requires Inv(poolSize, s) && AllGrantsLogged(s) && Reaches(poolSize, s, run, r)
    ensures AllGrantsLogged(r)
    decreases |run|
  {
    if run != [] {
      LoggedStep(poolSize, s, run[0]);
      StepKeeps(poolSize, s, run[0]);
      LoggedRun(poolSize, Do(poolSize, s, run[0]), run[1..], r);
    }
  }

  /** The log of grants holds exactly the VMs that are active, were released, or were displaced. */
  lemma GrantsExact(poolSize: nat, s: State, c: nat)
    requires Reachable(poolSize, s) && c in s.ledger
    ensures s.ledger[c].vm in s.granted <==>
            s.ledger[c].place.InActive? || s.ledger[c].place.Released? || s.ledger[c].place.Overwritten?
    ensures IsActive(s, s.ledger[c].vm) ==> s.ledger[c].vm in s.granted
  {
    ReachableInv(poolSize, s);
    var run :| Reaches(poolSize, InitialState(), run, s);
    InitialInv(poolSize);
    LoggedRun(poolSize, InitialState(), run, s);
    assert IsActive(s, s.ledger[c].vm) ==> Recorded(s.ledger, s.ledger[c].vm, InActive);
  }

  // ---------------------------------------------------------------- the bound on the pool

  /** In every state of the run at most `k` replenishers are past the length check. */
  ghost predicate AtMost(poolSize: nat, s: State, run: seq<Step>, k: nat)
    decreases |run|
  {
    && Count(s.tasks, Refilling) <= k
    && (run != [] ==> Enabled(s, run[0]) && AtMost(poolSize, Do(poolSize, s, run[0]), run[1..], k))
  }

  lemma PeakStep(poolSize: nat, s: State, step: Step)
    requires Enabled(s, step)
    ensures var s' := Do(poolSize, s, step); s'.peak == s.peak || s'.peak == Count(s'.tasks, Refilling)
  {
    if !step.Control? {
      PeakStays(poolSize, s, step);
    }
  }

  lemma PeakStays(poolSize: nat, s: State, step: Step)
    requires Enabled(s, step) && !step.Control?
    ensures Do(poolSize, s, step).peak == s.peak
  {
  }

  lemma {:induction false} PeakRun(poolSize: nat, s: State, run: seq<Step>, r: State, k: nat)
    requires Reaches(poolSize, s, run, r) && AtMost(poolSize, s, run, k) && s.peak <= k
    ensures r.peak <= k
    decreases |run|
  {
    if run != [] {
      PeakStep(poolSize, s, run[0]);
      var s' := Do(poolSize, s, run[0]);
      assert AtMost(poolSize, s', run[1..], k);
      PeakRun(poolSize, s', run[1..], r, k);
    }
  }

  /** If at most `k` replenishers are ever past the length check at once, ready VMs plus those
      replenishers stay within max(pool_size, pool_size - 1 + k); with `k` at most 1 the pool never
      exceeds pool_size. */
  lemma PoolBoundRun(poolSize: nat, run: seq<Step>, s: State, k: nat)
    requires Reaches(poolSize, InitialState(), run, s) && AtMost(poolSize, InitialState(), run, k)
    ensures |s.sh.ready| + Count(s.tasks, Refilling) <= if k == 0 then poolSize else poolSize - 1 + k
    ensures k <= 1 ==> |s.sh.ready| <= poolSize
  {
    PeakRun(poolSize, InitialState(), run, s, k);
    PoolBound(poolSize, s);
  }
}
