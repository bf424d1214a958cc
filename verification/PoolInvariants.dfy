/** The pool's invariants hold in every state of every run. */
module PoolInvariants {
  import opened Basics
  import opened PoolMachine

  // ------------------------------------------------------- counting tasks

  /** Changing one task changes each count by what that task contributes. */
  lemma Recount(tasks: map<TaskId, Task>, tasks': map<TaskId, Task>, t: TaskId, p: Task -> bool)
    requires OnlyTask(tasks, tasks', t)
    ensures Count(tasks', p)
         == Count(tasks, p) - One(t in tasks && p(tasks[t])) + One(t in tasks' && p(tasks'[t]))
  {
    Elsewhere(tasks, tasks', t, p);
    Apart(tasks, t, p);
    Apart(tasks', t, p);
  }

  lemma Elsewhere(tasks: map<TaskId, Task>, tasks': map<TaskId, Task>, t: TaskId, p: Task -> bool)
    requires OnlyTask(tasks, tasks', t)
    ensures Where(tasks', p) - {t} == Where(tasks, p) - {t}
  {
  }

  lemma Apart(tasks: map<TaskId, Task>, t: TaskId, p: Task -> bool)
    ensures Count(tasks, p) == |Where(tasks, p) - {t}| + One(t in tasks && p(tasks[t]))
  {
    var all := Where(tasks, p);
    if t in all {
      assert all == all - {t} + {t};
    } else {
      assert all == all - {t};
    }
  }

  // ---------------------------------------------------------- preservation

  lemma InitialInv(poolSize: nat)
    ensures Inv(poolSize, InitialState())
  {
    var s := InitialState();
    assert Where(s.tasks, InFlight) == {};
    assert Where(s.tasks, Refilling) == {};
  }

  /** `after` differs from `before` at most in task `t`. */
  ghost predicate OnlyTask(before: map<TaskId, Task>, after: map<TaskId, Task>, t: TaskId) {
    && (forall u :: u in before && u != t ==> u in after && after[u] == before[u])
    && (forall u :: u in after && u != t ==> u in before)
  }

  ghost function CarriedAt(tasks: map<TaskId, Task>, t: TaskId): Option<Vm> {
    if t in tasks then Carried(tasks[t]) else None
  }

  lemma ReadyFrame(ready: seq<Vm>, l: Ledger, c: nat, r: Record)
    requires ReadyInv(ready, l) && (c in l ==> !l[c].place.InReady?) && !r.place.InReady?
    ensures ReadyInv(ready, l[c := r])
  {
  }

  lemma TaskFrame(tasks: map<TaskId, Task>, l: Ledger, c: nat, r: Record)
    requires TaskInv(tasks, l) && (c in l ==> !l[c].place.InTask?) && !r.place.InTask?
    ensures TaskInv(tasks, l[c := r])
  {
  }

  lemma ActiveFrame(active: map<VmId, Vm>, l: Ledger, c: nat, r: Record)
    requires ActiveInv(active, l) && (c in l ==> !l[c].place.InActive?) && !r.place.InActive?
    ensures ActiveInv(active, l[c := r])
  {
  }

  lemma OverwrittenFrame(overwritten: set<Vm>, l: Ledger, c: nat, r: Record)
    requires OverwrittenInv(overwritten, l) && (c in l ==> !l[c].place.Overwritten?) && !r.place.Overwritten?
    ensures OverwrittenInv(overwritten, l[c := r])
  {
  }

  lemma GrantFrame(granted: seq<Vm>, l: Ledger, c: nat, r: Record)
    requires GrantInv(granted, l)
    requires c in l && Granted(l[c].place) ==> r.vm == l[c].vm && Granted(r.place)
    ensures GrantInv(granted, l[c := r])
  {
  }

  /** A task goes on with the VM it carried, or with none. */
  lemma TaskGoesOn(tasks: map<TaskId, Task>, tasks': map<TaskId, Task>, l: Ledger, t: TaskId)
    requires TaskInv(tasks, l) && OnlyTask(tasks, tasks', t) && CarriedAt(tasks', t) == CarriedAt(tasks, t)
    ensures TaskInv(tasks', l)
  {
  }

  /** A task without a VM takes `vm`, which no task carried. */
  lemma TaskTakes(tasks: map<TaskId, Task>, tasks': map<TaskId, Task>, l: Ledger, t: TaskId, vm: Vm)
    requires TaskInv(tasks, l) && OnlyTask(tasks, tasks', t)
    requires CarriedAt(tasks, t) == None && CarriedAt(tasks', t) == Some(vm)
    requires vm.cid in l ==> !l[vm.cid].place.InTask?
    ensures TaskInv(tasks', l[vm.cid := Record(vm, InTask(t))])
  {
  }

  lemma TaskGives(tasks: map<TaskId, Task>, tasks': map<TaskId, Task>, l: Ledger, t: TaskId, vm: Vm, place: Place)
    requires Keyed(l) && TaskInv(tasks, l) && OnlyTask(tasks, tasks', t) && !place.InTask?
    requires CarriedAt(tasks, t) == Some(vm) && CarriedAt(tasks', t) == None
    ensures Recorded(l, vm, InTask(t))
    ensures TaskInv(tasks', l[vm.cid := Record(vm, place)])
  {
  }

  lemma QuietStep(s: State, s': State, t: TaskId)
    requires LedgerInv(s) && OnlyTask(s.tasks, s'.tasks, t) && CarriedAt(s'.tasks, t) == CarriedAt(s.tasks, t)
    requires s'.sh.ready == s.sh.ready && s'.sh.active == s.sh.active && s.sh.nextCid <= s'.sh.nextCid
    requires s'.ledger == s.ledger && s'.overwritten == s.overwritten && s'.granted == s.granted
    ensures LedgerInv(s')
  {
    TaskGoesOn(s.tasks, s'.tasks, s.ledger, t);
  }

  lemma BornStep(s: State, s': State, t: TaskId, vm: Vm)
    requires LedgerInv(s) && OnlyTask(s.tasks, s'.tasks, t) && FIRST_CID <= s.sh.nextCid == vm.cid
    requires CarriedAt(s.tasks, t) == None && CarriedAt(s'.tasks, t) == Some(vm)
    requires s'.sh == s.sh.(nextCid := s.sh.nextCid + 1)
    requires s'.ledger == s.ledger[vm.cid := Record(vm, InTask(t))] && s'.overwritten == s.overwritten && s'.granted == s.granted
    ensures LedgerInv(s')
  {
    var r := Record(vm, InTask(t));
    assert vm.cid !in s.ledger;
    TaskTakes(s.tasks, s'.tasks, s.ledger, t, vm);
    ReadyFrame(s.sh.ready, s.ledger, vm.cid, r);
    ActiveFrame(s.sh.active, s.ledger, vm.cid, r);
    OverwrittenFrame(s.overwritten, s.ledger, vm.cid, r);
    GrantFrame(s.granted, s.ledger, vm.cid, r);
  }

  lemma LostStep(s: State, s': State, t: TaskId, vm: Vm, place: Place)
    requires LedgerInv(s) && OnlyTask(s.tasks, s'.tasks, t) && (place.Failed? || place.Orphaned?)
    requires CarriedAt(s.tasks, t) == Some(vm) && CarriedAt(s'.tasks, t) == None
    requires s'.sh == s.sh && s'.overwritten == s.overwritten && s'.granted == s.granted
    requires s'.ledger == s.ledger[vm.cid := Record(vm, place)]
    ensures LedgerInv(s')
  {
    var r := Record(vm, place);
    TaskGives(s.tasks, s'.tasks, s.ledger, t, vm, place);
    ReadyFrame(s.sh.ready, s.ledger, vm.cid, r);
    ActiveFrame(s.sh.active, s.ledger, vm.cid, r);
    OverwrittenFrame(s.overwritten, s.ledger, vm.cid, r);
    GrantFrame(s.granted, s.ledger, vm.cid, r);
  }

  lemma ReadyPush(ready: seq<Vm>, l: Ledger, vm: Vm)
    requires ReadyInv(ready, l) && vm.cid in l && !l[vm.cid].place.InReady?
    ensures ReadyInv(ready + [vm], l[vm.cid := Record(vm, InReady)])
  {
    assert vm !in ready;
  }

  lemma PushStep(s: State, s': State, t: TaskId, vm: Vm)
    requires LedgerInv(s) && OnlyTask(s.tasks, s'.tasks, t)
    requires CarriedAt(s.tasks, t) == Some(vm) && CarriedAt(s'.tasks, t) == None
    requires s'.sh == PushReady(s.sh, vm) && s'.overwritten == s.overwritten && s'.granted == s.granted
    requires s'.ledger == s.ledger[vm.cid := Record(vm, InReady)]
    ensures LedgerInv(s')
  {
    var r := Record(vm, InReady);
    TaskGives(s.tasks, s'.tasks, s.ledger, t, vm, InReady);
    ReadyPush(s.sh.ready, s.ledger, vm);
    ActiveFrame(s.sh.active, s.ledger, vm.cid, r);
    OverwrittenFrame(s.overwritten, s.ledger, vm.cid, r);
    GrantFrame(s.granted, s.ledger, vm.cid, r);
  }

  lemma ReadyPop(ready: seq<Vm>, l: Ledger, place: Place)
    requires Keyed(l) && ready != [] && ReadyInv(ready, l) && !place.InReady?
    ensures ReadyInv(ready[..|ready| - 1], l[Last(ready).cid := Record(Last(ready), place)])
  {
    assert ready == ready[..|ready| - 1] + [Last(ready)];
    assert Recorded(l, Last(ready), InReady);
  }

  lemma PopStep(s: State, s': State, t: TaskId)
    requires LedgerInv(s) && OnlyTask(s.tasks, s'.tasks, t) && s.sh.ready != []
    requires CarriedAt(s.tasks, t) == None && CarriedAt(s'.tasks, t) == Some(Last(s.sh.ready))
    requires s'.sh == PopReady(s.sh) && s'.overwritten == s.overwritten && s'.granted == s.granted
    requires s'.ledger == s.ledger[Last(s.sh.ready).cid := Record(Last(s.sh.ready), InTask(t))]
    ensures LedgerInv(s')
  {
    var vm := Last(s.sh.ready);
    assert Recorded(s.ledger, vm, InReady);
    TaskTakes(s.tasks, s'.tasks, s.ledger, t, vm);
    ReadyPop(s.sh.ready, s.ledger, InTask(t));
    ActiveFrame(s.sh.active, s.ledger, vm.cid, Record(vm, InTask(t)));
    OverwrittenFrame(s.overwritten, s.ledger, vm.cid, Record(vm, InTask(t)));
    GrantFrame(s.granted, s.ledger, vm.cid, Record(vm, InTask(t)));
  }

  lemma ActiveRemove(active: map<VmId, Vm>, l: Ledger, id: VmId, place: Place)
    requires Keyed(l) && ActiveInv(active, l) && id in active && !place.InActive?
    ensures ActiveInv(active - {id}, l[active[id].cid := Record(active[id], place)])
  {
    assert Recorded(l, active[id], InActive);
  }

  lemma ActiveAdd(active: map<VmId, Vm>, l: Ledger, vm: Vm)
    requires ActiveInv(active, l) && vm.id !in active && (vm.cid in l ==> !l[vm.cid].place.InActive?)
    ensures ActiveInv(active[vm.id := vm], l[vm.cid := Record(vm, InActive)])
  {
  }

  lemma RemoveStep(s: State, s': State, t: TaskId, id: VmId)
    requires LedgerInv(s) && OnlyTask(s.tasks, s'.tasks, t) && id in s.sh.active
    requires CarriedAt(s'.tasks, t) == CarriedAt(s.tasks, t)
    requires s'.sh == RemoveActive(s.sh, id) && s'.overwritten == s.overwritten && s'.granted == s.granted
    requires s'.ledger == s.ledger[s.sh.active[id].cid := Record(s.sh.active[id], Released)]
    ensures LedgerInv(s')
  {
    var vm := s.sh.active[id];
    assert Recorded(s.ledger, vm, InActive);
    ActiveRemove(s.sh.active, s.ledger, id, Released);
    ReadyFrame(s.sh.ready, s.ledger, vm.cid, Record(vm, Released));
    OverwrittenFrame(s.overwritten, s.ledger, vm.cid, Record(vm, Released));
    GrantFrame(s.granted, s.ledger, vm.cid, Record(vm, Released));
    TaskFrame(s.tasks, s.ledger, vm.cid, Record(vm, Released));
    TaskGoesOn(s.tasks, s'.tasks, s'.ledger, t);
  }

  lemma DisplacedFrame(s: State, vm: Vm)
    ensures vm.id !in Displaced(s, vm.id).sh.active
    ensures Displaced(s, vm.id).sh.active[vm.id := vm] == s.sh.active[vm.id := vm]
    ensures Displaced(s, vm.id).sh.ready == s.sh.ready && Displaced(s, vm.id).sh.nextCid == s.sh.nextCid
    ensures Displaced(s, vm.id).tasks == s.tasks && Displaced(s, vm.id).granted == s.granted
  {
  }

  lemma DisplacedLedger(s: State, id: VmId)
    requires LedgerInv(s)
    ensures LedgerInv(Displaced(s, id))
  {
    if id in s.sh.active {
      var vm := s.sh.active[id];
      assert Recorded(s.ledger, vm, InActive);
      ActiveRemove(s.sh.active, s.ledger, id, Overwritten);
      ReadyFrame(s.sh.ready, s.ledger, vm.cid, Record(vm, Overwritten));
      TaskFrame(s.tasks, s.ledger, vm.cid, Record(vm, Overwritten));
      GrantFrame(s.granted, s.ledger, vm.cid, Record(vm, Overwritten));
    }
  }

  lemma GrantAdd(granted: seq<Vm>, l: Ledger, vm: Vm)
    requires GrantInv(granted, l) && vm.cid in l && !Granted(l[vm.cid].place)
    ensures GrantInv(granted + [vm], l[vm.cid := Record(vm, InActive)])
  {
    assert vm !in granted;
  }

  lemma ActivateStep(s: State, s': State, t: TaskId, vm: Vm)
    requires LedgerInv(s) && OnlyTask(s.tasks, s'.tasks, t) && vm.id !in s.sh.active
    requires CarriedAt(s.tasks, t) == Some(vm) && CarriedAt(s'.tasks, t) == None
    requires s'.sh.active == s.sh.active[vm.id := vm] && s'.overwritten == s.overwritten && s'.granted == s.granted + [vm]
    requires s'.sh.ready == s.sh.ready && s'.sh.nextCid == s.sh.nextCid
    requires s'.ledger == s.ledger[vm.cid := Record(vm, InActive)]
    ensures LedgerInv(s')
  {
    TaskGives(s.tasks, s'.tasks, s.ledger, t, vm, InActive);
    ActiveAdd(s.sh.active, s.ledger, vm);
    ReadyFrame(s.sh.ready, s.ledger, vm.cid, Record(vm, InActive));
    OverwrittenFrame(s.overwritten, s.ledger, vm.cid, Record(vm, InActive));
    GrantAdd(s.granted, s.ledger, vm);
  }

  lemma InsertStep(s: State, s': State, t: TaskId, c: Client, vm: Vm)
    requires LedgerInv(s) && t in s.tasks && s.tasks[t] == Inserting(c, vm) && s' == DoInsert(s, t, c, vm)
    ensures LedgerInv(s')
  {
    var mid := Displaced(s, vm.id);
    DisplacedLedger(s, vm.id);
    DisplacedFrame(s, vm);
    ActivateStep(mid, s', t, vm);
  }

  // Ids

  lemma WarmTaskFrame(tasks: map<TaskId, Task>, tasks': map<TaskId, Task>, t: TaskId, n: nat, m: map<nat, nat>)
    requires WarmTaskInv(tasks, n, m) && OnlyTask(tasks, tasks', t) && (t in tasks' ==> !tasks'[t].WarmCid?)
    ensures WarmTaskInv(tasks', n, m)
  {
  }

  /** A record changes its place and keeps its VM, or a VM with a fresh id is recorded. */
  lemma IdFrame(l: Ledger, m: map<nat, nat>, c: nat, r: Record)
    requires WarmIdInv(l, m) && c in l && l[c].vm == r.vm
    ensures WarmIdInv(l[c := r], m) && (PoolIdInv(l) ==> PoolIdInv(l[c := r]))
  {
  }

  lemma QuietIds(s: State, s': State, t: TaskId)
    requires IdInv(s) && OnlyTask(s.tasks, s'.tasks, t) && (t in s'.tasks ==> !s'.tasks[t].WarmCid?)
    requires s'.ledger == s.ledger && s'.overwritten == s.overwritten && s'.granted == s.granted && s'.clashes == s.clashes
    requires s'.warmNo == s.warmNo && s'.warmCids == s.warmCids
    ensures IdInv(s')
  {
    WarmTaskFrame(s.tasks, s'.tasks, t, s.warmNo, s.warmCids);
  }

  lemma MovedIds(s: State, s': State, t: TaskId, vm: Vm, place: Place)
    requires IdInv(s) && OnlyTask(s.tasks, s'.tasks, t) && (t in s'.tasks ==> !s'.tasks[t].WarmCid?)
    requires vm.cid in s.ledger && s.ledger[vm.cid].vm == vm && s'.ledger == s.ledger[vm.cid := Record(vm, place)]
    requires s'.overwritten == s.overwritten && s'.granted == s.granted && s'.clashes == s.clashes
    requires s'.warmNo == s.warmNo && s'.warmCids == s.warmCids
    ensures IdInv(s')
  {
    WarmTaskFrame(s.tasks, s'.tasks, t, s.warmNo, s.warmCids);
    IdFrame(s.ledger, s.warmCids, vm.cid, Record(vm, place));
  }

  lemma FetchIds(s: State, t: TaskId, w: Purpose, n: nat)
    requires IdInv(s) && t in s.tasks && s.tasks[t] == FetchCid(w, n)
    ensures IdInv(DoFetch(s, t, w, n))
  {
    WarmTaskFrame(s.tasks, DoFetch(s, t, w, n).tasks, t, s.warmNo, s.warmCids);
  }

  lemma WarmFetchIds(s: State, t: TaskId, c: Client, key: ImageKey, no: nat)
    requires IdInv(s) && KeyInv(s.ledger, s.sh.nextCid) && t in s.tasks && s.tasks[t] == WarmCid(c, key, no)
    ensures IdInv(DoWarmFetch(s, t, c, key, no))
  {
    var s' := DoWarmFetch(s, t, c, key, no);
    assert OnlyTask(s.tasks, s'.tasks, t);
  }

  /** While no id read was overtaken, an insert never meets an occupied id. */
  lemma NoDisplacement(s: State, t: TaskId, c: Client, vm: Vm)
    requires LedgerInv(s) && IdInv(s) && s.clashes == 0 && t in s.tasks && s.tasks[t] == Inserting(c, vm)
    ensures vm.id !in s.sh.active
  {
    assert Carried(s.tasks[t]) == Some(vm);
    assert Recorded(s.ledger, vm, InTask(t));
  }

  lemma InsertIds(s: State, t: TaskId, c: Client, vm: Vm)
    requires LedgerInv(s) && IdInv(s) && t in s.tasks && s.tasks[t] == Inserting(c, vm)
    ensures IdInv(DoInsert(s, t, c, vm))
  {
    var s' := DoInsert(s, t, c, vm);
    assert Recorded(s.ledger, vm, InTask(t)) by { assert Carried(s.tasks[t]) == Some(vm); }
    WarmTaskFrame(s.tasks, s'.tasks, t, s.warmNo, s.warmCids);
    if s.clashes == 0 { NoDisplacement(s, t, c, vm); }
    var mid := Displaced(s, vm.id);
    if vm.id in s.sh.active {
      assert Recorded(s.ledger, s.sh.active[vm.id], InActive);
      IdFrame(s.ledger, s.warmCids, s.sh.active[vm.id].cid, Record(s.sh.active[vm.id], Overwritten));
    }
    IdFrame(mid.ledger, s.warmCids, vm.cid, Record(vm, InActive));
  }

  // Counts

  lemma OneLess(m: map<VmId, Vm>, id: VmId)
    requires id in m
    ensures |m - {id}| == |m| - 1
  {
    assert m.Keys == (m - {id}).Keys + {id};
  }

  lemma OneMore(m: map<VmId, Vm>, vm: Vm)
    ensures |m[vm.id := vm]| == |m| + One(vm.id !in m)
  {
    assert m[vm.id := vm].Keys == m.Keys + {vm.id};
  }

  lemma InsertCounts(s: State, s': State, t: TaskId, c: Client, vm: Vm)
    requires LedgerInv(s) && CountInv(s) && t in s.tasks && s.tasks[t] == Inserting(c, vm)
    requires s' == DoInsert(s, t, c, vm)
    ensures CountInv(s')
  {
    Recount(s.tasks, s'.tasks, t, InFlight);
    if vm.id in s.sh.active {
      assert Recorded(s.ledger, s.sh.active[vm.id], InActive);
      assert s.sh.active[vm.id] !in s.overwritten;
    }
    OneMore(s.sh.active, vm);
  }

  lemma RemoveCounts(s: State, s': State, t: TaskId, c: Client, id: VmId)
    requires CountInv(s) && t in s.tasks && s.tasks[t] == Removing(c, id)
    requires s' == DoRemove(s, t, c, id)
    ensures CountInv(s')
  {
    Recount(s.tasks, s'.tasks, t, InFlight);
    if id in s.sh.active { OneLess(s.sh.active, id); }
  }

  /** The counter moves with the number of tasks between their two operations. */
  lemma OtherCounts(s: State, s': State, t: TaskId)
    requires CountInv(s) && OnlyTask(s.tasks, s'.tasks, t)
    requires s'.sh.active == s.sh.active && s'.overwritten == s.overwritten && s'.granted == s.granted
    requires s'.sh.count - s.sh.count
          == One(t in s'.tasks && InFlight(s'.tasks[t])) - One(t in s.tasks && InFlight(s.tasks[t]))
    ensures CountInv(s')
  {
    Recount(s.tasks, s'.tasks, t, InFlight);
  }

  /** Outside the length check, ready VMs plus pending refills never grow. */
  lemma OtherSize(poolSize: nat, s: State, s': State, t: TaskId)
    requires SizeInv(poolSize, s) && OnlyTask(s.tasks, s'.tasks, t) && s'.peak == s.peak
    requires t in s'.tasks && Refilling(s'.tasks[t]) ==> t in s.tasks && Refilling(s.tasks[t])
    requires |s'.sh.ready| - |s.sh.ready|
          <= One(t in s.tasks && Refilling(s.tasks[t])) - One(t in s'.tasks && Refilling(s'.tasks[t]))
    ensures SizeInv(poolSize, s')
  {
    Recount(s.tasks, s'.tasks, t, Refilling);
  }

  lemma CheckSize(poolSize: nat, s: State, s': State, t: TaskId)
    requires SizeInv(poolSize, s) && t in s.tasks && s.tasks[t].Checking?
    requires s' == DoControl(poolSize, s, t, Check)
    ensures SizeInv(poolSize, s')
  {
    Recount(s.tasks, s'.tasks, t, Refilling);
  }

  lemma FillSize(poolSize: nat, s: State, s': State, t: TaskId)
    requires StartupInv(poolSize, s) && !s.serving && OnlyTask(s.tasks, s'.tasks, t) && t == 0
    requires t in s'.tasks ==> !Refilling(s'.tasks[t])
    requires |s'.sh.ready| <= poolSize && s'.peak >= s.peak
    ensures SizeInv(poolSize, s')
  {
    assert Where(s'.tasks, Refilling) == {};
  }

  // Control steps

  lemma CheckLedger(poolSize: nat, s: State, t: TaskId)
    requires LedgerInv(s) && CidInv(s) && t in s.tasks && s.tasks[t].Checking?
    ensures LedgerInv(DoCheck(poolSize, s, t)) && CidInv(DoCheck(poolSize, s, t))
  {
    QuietStep(s, DoCheck(poolSize, s, t), t);
  }

  lemma BaseLedger(poolSize: nat, s: State, t: TaskId, create: bool)
    requires LedgerInv(s) && CidInv(s) && t in s.tasks && s.tasks[t].Starting?
    ensures LedgerInv(DoControl(poolSize, s, t, Base(create))) && CidInv(DoControl(poolSize, s, t, Base(create)))
  {
    QuietStep(s, DoControl(poolSize, s, t, Base(create)), t);
  }

  lemma ControlLedger(poolSize: nat, s: State, t: TaskId, x: ControlStep)
    requires LedgerInv(s) && CidInv(s) && t in s.tasks && ControlEnabled(s.tasks[t], x)
    ensures LedgerInv(DoControl(poolSize, s, t, x)) && CidInv(DoControl(poolSize, s, t, x))
  {
    match x
    case Base(create) => BaseLedger(poolSize, s, t, create);
    case FillHead => QuietStep(s, DoControl(poolSize, s, t, FillHead), t);
    case Check => CheckLedger(poolSize, s, t);
  }

  lemma ControlIds(poolSize: nat, s: State, t: TaskId, x: ControlStep)
    requires IdInv(s) && t in s.tasks && ControlEnabled(s.tasks[t], x)
    ensures IdInv(DoControl(poolSize, s, t, x))
  {
    var s' := DoControl(poolSize, s, t, x);
    QuietIds(s, s', t);
  }

  lemma ControlCounts(poolSize: nat, s: State, t: TaskId, x: ControlStep)
    requires CountInv(s) && SizeInv(poolSize, s) && StartupInv(poolSize, s) && t in s.tasks && ControlEnabled(s.tasks[t], x)
    ensures CountInv(DoControl(poolSize, s, t, x)) && SizeInv(poolSize, DoControl(poolSize, s, t, x))
  {
    var s' := DoControl(poolSize, s, t, x);
    OtherCounts(s, s', t);
    match x
    case Check => CheckSize(poolSize, s, s', t);
    case _ => FillSize(poolSize, s, s', t);
  }

  lemma ControlStartup(poolSize: nat, s: State, t: TaskId, x: ControlStep)
    requires StartupInv(poolSize, s) && t in s.tasks && ControlEnabled(s.tasks[t], x)
    ensures StartupInv(poolSize, DoControl(poolSize, s, t, x))
  {
  }

  // Restore steps

  lemma BootLedger(s: State, t: TaskId, w: Purpose, vm: Vm, ok: bool)
    requires LedgerInv(s) && CidInv(s) && t in s.tasks && s.tasks[t] == Booting(w, vm)
    ensures LedgerInv(DoBoot(s, t, w, vm, ok)) && CidInv(DoBoot(s, t, w, vm, ok))
  {
    var s' := DoBoot(s, t, w, vm, ok);
    assert OnlyTask(s.tasks, s'.tasks, t);
    if ok { QuietStep(s, s', t); } else { LostStep(s, s', t, vm, Failed); }
  }

  lemma PushLedger(s: State, t: TaskId, w: Purpose, vm: Vm)
    requires LedgerInv(s) && CidInv(s) && t in s.tasks && s.tasks[t] == Pushing(w, vm)
    ensures LedgerInv(DoPush(s, t, w, vm)) && CidInv(DoPush(s, t, w, vm))
  {
    PushStep(s, DoPush(s, t, w, vm), t, vm);
  }

  lemma BootIds(s: State, t: TaskId, w: Purpose, vm: Vm, ok: bool)
    requires LedgerInv(s) && IdInv(s) && t in s.tasks && s.tasks[t] == Booting(w, vm)
    ensures IdInv(DoBoot(s, t, w, vm, ok))
  {
    assert Carried(s.tasks[t]) == Some(vm);
    var s' := DoBoot(s, t, w, vm, ok);
    if ok { QuietIds(s, s', t); } else { MovedIds(s, s', t, vm, Failed); }
  }

  lemma PushIds(s: State, t: TaskId, w: Purpose, vm: Vm)
    requires LedgerInv(s) && IdInv(s) && t in s.tasks && s.tasks[t] == Pushing(w, vm)
    ensures IdInv(DoPush(s, t, w, vm))
  {
    assert Carried(s.tasks[t]) == Some(vm);
    MovedIds(s, DoPush(s, t, w, vm), t, vm, InReady);
  }

  lemma RestoreLedger(s: State, t: TaskId, x: RestoreStep)
    requires LedgerInv(s) && CidInv(s) && t in s.tasks && RestoreEnabled(s.tasks[t], x)
    ensures LedgerInv(DoRestore(s, t, x)) && CidInv(DoRestore(s, t, x))
  {
    var s' := DoRestore(s, t, x);
    match x
    case Load => QuietStep(s, s', t);
    case Fetch => BornStep(s, s', t, s'.tasks[t].vm);
    case Boot(ok) => BootLedger(s, t, s.tasks[t].w, s.tasks[t].vm, ok);
    case Push => PushLedger(s, t, s.tasks[t].w, s.tasks[t].vm);
  }

  lemma RestoreIds(s: State, t: TaskId, x: RestoreStep)
    requires LedgerInv(s) && IdInv(s) && t in s.tasks && RestoreEnabled(s.tasks[t], x)
    ensures IdInv(DoRestore(s, t, x))
  {
    var s' := DoRestore(s, t, x);
    match x
    case Load => QuietIds(s, s', t);
    case Fetch => FetchIds(s, t, s.tasks[t].w, s.tasks[t].n);
    case Boot(ok) => BootIds(s, t, s.tasks[t].w, s.tasks[t].vm, ok);
    case Push => PushIds(s, t, s.tasks[t].w, s.tasks[t].vm);
  }

  lemma BootCounts(s: State, t: TaskId, w: Purpose, vm: Vm, ok: bool)
    requires CountInv(s) && t in s.tasks && s.tasks[t] == Booting(w, vm)
    ensures CountInv(DoBoot(s, t, w, vm, ok))
  {
    OtherCounts(s, DoBoot(s, t, w, vm, ok), t);
  }

  lemma PushCounts(s: State, t: TaskId, w: Purpose, vm: Vm)
    requires CountInv(s) && t in s.tasks && s.tasks[t] == Pushing(w, vm)
    ensures CountInv(DoPush(s, t, w, vm))
  {
    OtherCounts(s, DoPush(s, t, w, vm), t);
  }

  lemma RestoreCounts(s: State, t: TaskId, x: RestoreStep)
    requires CountInv(s) && t in s.tasks && RestoreEnabled(s.tasks[t], x)
    ensures CountInv(DoRestore(s, t, x))
  {
    match x
    case Boot(ok) => BootCounts(s, t, s.tasks[t].w, s.tasks[t].vm, ok);
    case Push => PushCounts(s, t, s.tasks[t].w, s.tasks[t].vm);
    case _ => OtherCounts(s, DoRestore(s, t, x), t);
  }

  lemma RestoreSize(poolSize: nat, s: State, t: TaskId, x: RestoreStep)
    requires SizeInv(poolSize, s) && StartupInv(poolSize, s) && t in s.tasks && RestoreEnabled(s.tasks[t], x)
    ensures SizeInv(poolSize, DoRestore(s, t, x))
  {
    var s' := DoRestore(s, t, x);
    if s.serving { OtherSize(poolSize, s, s', t); } else { FillSize(poolSize, s, s', t); }
  }

  lemma RestoreStartup(poolSize: nat, s: State, t: TaskId, x: RestoreStep)
    requires StartupInv(poolSize, s) && t in s.tasks && RestoreEnabled(s.tasks[t], x)
    ensures StartupInv(poolSize, DoRestore(s, t, x))
  {
  }

  // Acquire steps

  lemma AcquireLedger(s: State, t: TaskId, x: AcquireStep)
    requires LedgerInv(s) && CidInv(s) && t in s.tasks && AcquireEnabled(s.tasks[t], x)
    ensures LedgerInv(DoAcquire(s, t, x)) && CidInv(DoAcquire(s, t, x))
  {
    var s' := DoAcquire(s, t, x);
    match x
    case Pop => if s.sh.ready == [] { QuietStep(s, s', t); } else { PopStep(s, s', t); }
    case AddCount => QuietStep(s, s', t);
    case Insert => InsertStep(s, s', t, s.tasks[t].c, s.tasks[t].vm);
  }

  lemma AcquireIds(s: State, t: TaskId, x: AcquireStep)
    requires LedgerInv(s) && IdInv(s) && t in s.tasks && AcquireEnabled(s.tasks[t], x)
    ensures IdInv(DoAcquire(s, t, x))
  {
    var s' := DoAcquire(s, t, x);
    match x
    case Pop =>
      if s.sh.ready == [] { QuietIds(s, s', t); } else {
        assert Recorded(s.ledger, Last(s.sh.ready), InReady);
        MovedIds(s, s', t, Last(s.sh.ready), InTask(t));
      }
    case AddCount => QuietIds(s, s', t);
    case Insert => InsertIds(s, t, s.tasks[t].c, s.tasks[t].vm);
  }

  lemma PopCounts(s: State, t: TaskId)
    requires CountInv(s) && t in s.tasks && s.tasks[t].Popping?
    ensures CountInv(DoAcquire(s, t, Pop))
  {
    OtherCounts(s, DoAcquire(s, t, Pop), t);
  }

  lemma AcquireCounts(s: State, t: TaskId, x: AcquireStep)
    requires LedgerInv(s) && CountInv(s) && t in s.tasks && AcquireEnabled(s.tasks[t], x)
    ensures CountInv(DoAcquire(s, t, x))
  {
    match x
    case Pop => PopCounts(s, t);
    case AddCount => OtherCounts(s, DoAcquire(s, t, AddCount), t);
    case Insert => InsertCounts(s, DoAcquire(s, t, Insert), t, s.tasks[t].c, s.tasks[t].vm);
  }

  lemma AcquireSize(poolSize: nat, s: State, t: TaskId, x: AcquireStep)
    requires SizeInv(poolSize, s) && t in s.tasks && AcquireEnabled(s.tasks[t], x)
    ensures SizeInv(poolSize, DoAcquire(s, t, x))
  {
    OtherSize(poolSize, s, DoAcquire(s, t, x), t);
  }

  lemma AcquireStartup(poolSize: nat, s: State, t: TaskId, x: AcquireStep)
    requires StartupInv(poolSize, s) && t in s.tasks && AcquireEnabled(s.tasks[t], x)
    ensures StartupInv(poolSize, DoAcquire(s, t, x))
  {
  }

  // Release steps

  lemma ReleaseLedger(s: State, t: TaskId, x: ReleaseStep)
    requires LedgerInv(s) && CidInv(s) && t in s.tasks && ReleaseEnabled(s.tasks[t], x)
    ensures LedgerInv(DoRelease(s, t, x)) && CidInv(DoRelease(s, t, x))
  {
    var s' := DoRelease(s, t, x);
    match x
    case Remove =>
      if s.tasks[t].id in s.sh.active { RemoveStep(s, s', t, s.tasks[t].id); } else { QuietStep(s, s', t); }
    case SubCount => QuietStep(s, s', t);
  }

  lemma ReleaseIds(s: State, t: TaskId, x: ReleaseStep)
    requires LedgerInv(s) && IdInv(s) && t in s.tasks && ReleaseEnabled(s.tasks[t], x)
    ensures IdInv(DoRelease(s, t, x))
  {
    var s' := DoRelease(s, t, x);
    match x
    case Remove =>
      if s.tasks[t].id in s.sh.active {
        assert Recorded(s.ledger, s.sh.active[s.tasks[t].id], InActive);
        MovedIds(s, s', t, s.sh.active[s.tasks[t].id], Released);
      } else { QuietIds(s, s', t); }
    case SubCount => QuietIds(s, s', t);
  }

  lemma ReleaseCounts(poolSize: nat, s: State, t: TaskId, x: ReleaseStep)
    requires CountInv(s) && SizeInv(poolSize, s) && t in s.tasks && ReleaseEnabled(s.tasks[t], x)
    ensures CountInv(DoRelease(s, t, x)) && SizeInv(poolSize, DoRelease(s, t, x))
  {
    var s' := DoRelease(s, t, x);
    if x.Remove? { RemoveCounts(s, s', t, s.tasks[t].c, s.tasks[t].id); } else { OtherCounts(s, s', t); }
    OtherSize(poolSize, s, s', t);
  }

  lemma ReleaseStartup(poolSize: nat, s: State, t: TaskId, x: ReleaseStep)
    requires StartupInv(poolSize, s) && t in s.tasks && ReleaseEnabled(s.tasks[t], x)
    ensures StartupInv(poolSize, DoRelease(s, t, x))
  {
  }

  // Warm steps

  lemma WarmLedger(s: State, t: TaskId, x: WarmStep)
    requires LedgerInv(s) && CidInv(s) && t in s.tasks && WarmEnabled(s.tasks[t], x)
    ensures LedgerInv(DoWarm(s, t, x)) && CidInv(DoWarm(s, t, x))
  {
    var s' := DoWarm(s, t, x);
    match x
    case Take(_) => QuietStep(s, s', t);
    case TakeCid => BornStep(s, s', t, s'.tasks[t].vm);
    case Revive(ok) => if ok { QuietStep(s, s', t); } else { LostStep(s, s', t, s.tasks[t].vm, Failed); }
    case Connect(ok) => if ok { QuietStep(s, s', t); } else { LostStep(s, s', t, s.tasks[t].vm, Orphaned); }
  }

  lemma WarmIds(s: State, t: TaskId, x: WarmStep)
    requires LedgerInv(s) && IdInv(s) && t in s.tasks && WarmEnabled(s.tasks[t], x)
    ensures IdInv(DoWarm(s, t, x))
  {
    var s' := DoWarm(s, t, x);
    match x
    case Take(_) =>
    case TakeCid => WarmFetchIds(s, t, s.tasks[t].c, s.tasks[t].key, s.tasks[t].no);
    case Revive(ok) =>
      assert Recorded(s.ledger, s.tasks[t].vm, InTask(t));
      if ok { QuietIds(s, s', t); } else { MovedIds(s, s', t, s.tasks[t].vm, Failed); }
    case Connect(ok) =>
      assert Recorded(s.ledger, s.tasks[t].vm, InTask(t));
      if ok { QuietIds(s, s', t); } else { MovedIds(s, s', t, s.tasks[t].vm, Orphaned); }
  }

  lemma WarmSize(poolSize: nat, s: State, t: TaskId, x: WarmStep)
    requires SizeInv(poolSize, s) && t in s.tasks && WarmEnabled(s.tasks[t], x)
    ensures SizeInv(poolSize, DoWarm(s, t, x))
  {
    OtherSize(poolSize, s, DoWarm(s, t, x), t);
  }

  lemma WarmCounts(s: State, t: TaskId, x: WarmStep)
    requires CountInv(s) && t in s.tasks && WarmEnabled(s.tasks[t], x)
    ensures CountInv(DoWarm(s, t, x))
  {
    OtherCounts(s, DoWarm(s, t, x), t);
  }

  lemma WarmStartup(poolSize: nat, s: State, t: TaskId, x: WarmStep)
    requires StartupInv(poolSize, s) && t in s.tasks && WarmEnabled(s.tasks[t], x)
    ensures StartupInv(poolSize, DoWarm(s, t, x))
  {
  }

  // Handler steps

  lemma HandlerLedger(s: State, t: TaskId, x: HandlerStep)
    requires LedgerInv(s) && CidInv(s) && HandlerEnabled(s, t, x)
    ensures LedgerInv(DoHandler(s, t, x)) && CidInv(DoHandler(s, t, x))
  {
    var s' := DoHandler(s, t, x);
    QuietStep(s, s', t);
  }

  lemma HandlerIds(s: State, t: TaskId, x: HandlerStep)
    requires IdInv(s) && HandlerEnabled(s, t, x)
    ensures IdInv(DoHandler(s, t, x))
  {
    var s' := DoHandler(s, t, x);
    QuietIds(s, s', t);
  }

  lemma HandlerCounts(poolSize: nat, s: State, t: TaskId, x: HandlerStep)
    requires CountInv(s) && SizeInv(poolSize, s) && HandlerEnabled(s, t, x)
    ensures CountInv(DoHandler(s, t, x)) && SizeInv(poolSize, DoHandler(s, t, x))
  {
    var s' := DoHandler(s, t, x);
    OtherCounts(s, s', t);
    OtherSize(poolSize, s, s', t);
  }

  lemma HandlerStartup(poolSize: nat, s: State, t: TaskId, x: HandlerStep)
    requires StartupInv(poolSize, s) && HandlerEnabled(s, t, x)
    ensures StartupInv(poolSize, DoHandler(s, t, x))
  {
  }

  // ------------------------------------------------------------------ runs

  lemma StepKeeps(poolSize: nat, s: State, step: Step)
    requires Inv(poolSize, s) && Enabled(s, step)
    ensures Inv(poolSize, Do(poolSize, s, step))
  {
    match step
    case Control(t, c) =>
      ControlLedger(poolSize, s, t, c); ControlIds(poolSize, s, t, c);
      ControlCounts(poolSize, s, t, c); ControlStartup(poolSize, s, t, c);
    case Restore(t, r) =>
      RestoreLedger(s, t, r); RestoreIds(s, t, r); RestoreCounts(s, t, r);
      RestoreSize(poolSize, s, t, r); RestoreStartup(poolSize, s, t, r);
    case Acquire(t, a) =>
      AcquireLedger(s, t, a); AcquireIds(s, t, a); AcquireCounts(s, t, a);
      AcquireSize(poolSize, s, t, a); AcquireStartup(poolSize, s, t, a);
    case Release(t, l) =>
      ReleaseLedger(s, t, l); ReleaseIds(s, t, l); ReleaseCounts(poolSize, s, t, l); ReleaseStartup(poolSize, s, t, l);
    case Warm(t, w) =>
      WarmLedger(s, t, w); WarmIds(s, t, w); WarmCounts(s, t, w); WarmSize(poolSize, s, t, w); WarmStartup(poolSize, s, t, w);
    case Handler(t, h) =>
      HandlerLedger(s, t, h); HandlerIds(s, t, h); HandlerCounts(poolSize, s, t, h); HandlerStartup(poolSize, s, t, h);
  }

  lemma {:induction false} RunKeeps(poolSize: nat, s: State, run: seq<Step>, r: State)
    requires Inv(poolSize, s) && Reaches(poolSize, s, run, r)
    ensures Inv(poolSize, r)
    decreases |run|
  {
    if run != [] {
      StepKeeps(poolSize, s, run[0]);
      RunKeeps(poolSize, Do(poolSize, s, run[0]), run[1..], r);
    }
  }
}
