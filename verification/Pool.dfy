/** `Pool` in its own, imperative form, one caller at a time. Hypervisor calls are reduced to
    whether they succeed. The functions give the effect of each call on the shared fields; the
    lemmas at the end show that each is what the step machine does when one task runs alone. */
module PoolClass {
  import opened Basics
  import opened PoolMachine
  import opened PoolTheorems
  import opened PoolHistory

  function Activate(sh: Shared, vm: Vm): (r: Shared)
    ensures r.count - |r.active| == sh.count - |sh.active| + (if vm.id in sh.active then 1 else 0)
  {
    assert sh.active[vm.id := vm].Keys == sh.active.Keys + {vm.id};
    AddActive(sh.(count := sh.count + 1), vm)
  }

  function NextVm(sh: Shared): Vm {
    Vm(PoolVmId(sh.nextCid), sh.nextCid)
  }

  function Issued(sh: Shared): Shared {
    sh.(nextCid := sh.nextCid + 1)
  }

  function AcquireAlone(sh: Shared, restored: bool): (r: (Shared, Option<Vm>))
    ensures r.1.Some? <==> sh.ready != [] || restored
    ensures r.1.Some? ==> r.1.value.id in r.0.active && r.0.active[r.1.value.id] == r.1.value
    ensures r.1.Some? ==> r.0.count == sh.count + 1
  {
    if sh.ready != [] then (Activate(PopReady(sh), Last(sh.ready)), Some(Last(sh.ready)))
    else if restored then (Activate(Issued(sh), NextVm(sh)), Some(NextVm(sh)))
    else (Issued(sh), None)
  }

  function ReleaseAlone(sh: Shared, id: VmId): (r: Shared)
    ensures id !in r.active && r.count - |r.active| == sh.count - |sh.active|
  {
    if id in sh.active then
      assert sh.active.Keys == (sh.active - {id}).Keys + {id};
      RemoveActive(sh.(count := sh.count - 1), id)
    else sh
  }

  function ReplenishAlone(poolSize: nat, sh: Shared, restored: bool): (r: Shared)
    ensures |sh.ready| <= poolSize ==> |r.ready| <= poolSize
  {
    if |sh.ready| >= poolSize then sh
    else if restored then PushReady(Issued(sh), NextVm(sh)) else Issued(sh)
  }

  /** Successes among the first `n` restore attempts. */
  function Successes(outcomes: nat -> bool, n: nat): nat {
    if n == 0 then 0 else Successes(outcomes, n - 1) + if outcomes(n - 1) then 1 else 0
  }

  /** The fields after `n` slots of the fill loop. */
  function Filled(sh: Shared, outcomes: nat -> bool, n: nat): Shared {
    if n == 0 then sh
    else
      var before := Filled(sh, outcomes, n - 1);
      if outcomes(n - 1) then PushReady(Issued(before), NextVm(before)) else Issued(before)
  }

  /** What start-up finds or does about the base snapshot: its files exist, it is made, its directory
      cannot be made, or its VM fails. */
  datatype BaseSnapshot = Present | Made | NoDirectory | NotBooted

  function BaseCids(base: BaseSnapshot): nat {
    if base.Made? || base.NotBooted? then 1 else 0
  }

  class Pool {
    const poolSize: nat
    var ready: seq<Vm>
    var active: map<VmId, Vm>
    var activeCount: int
    var nextCid: nat

    ghost function Fields(): Shared
      reads this
    {
      Shared(ready, active, activeCount, nextCid)
    }

    constructor (poolSize: nat)
      ensures this.poolSize == poolSize && Fields() == InitialState().sh
    {
      this.poolSize := poolSize;
      ready, active, activeCount, nextCid := [], map[], 0, FIRST_CID;
    }

    method RestoreOne(ok: bool) returns (vm: Option<Vm>)
      modifies this`nextCid
      ensures Fields() == Issued(old(Fields()))
      ensures vm == if ok then Some(NextVm(old(Fields()))) else None
    {
      var id := PoolVmId(nextCid);
      var cid := nextCid;
      nextCid := nextCid + 1;
      vm := if ok then Some(Vm(id, cid)) else None;
    }

    /** Start-up. Unless the base snapshot is there, making it takes a CID, and a failure ends the start.
        Then one restore per slot: failures are skipped, so start-up never overfills. */
    method Initialize(base: BaseSnapshot, outcomes: nat -> bool) returns (ok: bool)
      modifies this
      ensures active == old(active) && activeCount == old(activeCount)
      ensures ok <==> base.Present? || base.Made?
      ensures nextCid == old(nextCid) + BaseCids(base) + if ok then poolSize else 0
      ensures |ready| == |old(ready)| + (if ok then Successes(outcomes, poolSize) else 0) <= |old(ready)| + poolSize
      ensures ready[..|old(ready)|] == old(ready)
      ensures forall i :: |old(ready)| <= i < |ready| ==>
                old(nextCid) + BaseCids(base) <= ready[i].cid < nextCid && ready[i].id == PoolVmId(ready[i].cid)
      ensures forall i, j :: |old(ready)| <= i < j < |ready| ==> ready[i].cid < ready[j].cid
      ensures ok ==> Fields() == Filled(if base.Made? then Issued(old(Fields())) else old(Fields()), outcomes, poolSize)
    {
      if !base.Present? {
        if base.NoDirectory? {
          return false;
        }
        nextCid := nextCid + 1;
        if base.NotBooted? {
          return false;
        }
      }
      FillUp(outcomes);
      return true;
    }

    method FillUp(outcomes: nat -> bool)
      modifies this
      ensures active == old(active) && activeCount == old(activeCount)
      ensures nextCid == old(nextCid) + poolSize
      ensures |ready| == |old(ready)| + Successes(outcomes, poolSize) <= |old(ready)| + poolSize
      ensures ready[..|old(ready)|] == old(ready)
      ensures forall i :: |old(ready)| <= i < |ready| ==> old(nextCid) <= ready[i].cid < nextCid && ready[i].id == PoolVmId(ready[i].cid)
      ensures forall i, j :: |old(ready)| <= i < j < |ready| ==> ready[i].cid < ready[j].cid
      ensures Fields() == Filled(old(Fields()), outcomes, poolSize)
    {
      var n := |ready|;
      for i := 0 to poolSize
        invariant Fields() == Filled(old(Fields()), outcomes, i)
        invariant active == old(active) && activeCount == old(activeCount)
        invariant nextCid == old(nextCid) + i
        invariant |ready| == n + Successes(outcomes, i) <= n + i
        invariant ready[..n] == old(ready)
        invariant forall k :: n <= k < |ready| ==> old(nextCid) <= ready[k].cid < nextCid && ready[k].id == PoolVmId(ready[k].cid)
        invariant forall j, k :: n <= j < k < |ready| ==> ready[j].cid < ready[k].cid
      {
        var vm := RestoreOne(outcomes(i));
        if vm.Some? {
          ready := ready + [vm.value];
        }
      }
    }

    method Acquire(restored: bool) returns (r: Option<Vm>)
      modifies this
      ensures (Fields(), r) == AcquireAlone(old(Fields()), restored)
    {
      if ready != [] {
        var vm := ready[|ready| - 1];
        ready := ready[..|ready| - 1];
        activeCount := activeCount + 1;
        active := active[vm.id := vm];
        return Some(vm);
      }
      r := RestoreOne(restored);
      if r.Some? {
        activeCount := activeCount + 1;
        active := active[r.value.id := r.value];
      }
    }

    method Release(id: VmId)
      modifies this
      ensures Fields() == ReleaseAlone(old(Fields()), id)
    {
      var removed := id in active;
      active := active - {id};
      if removed {
        activeCount := activeCount - 1;
      }
    }

    method RegisterActive(vm: Vm)
      modifies this
      ensures Fields() == Activate(old(Fields()), vm)
    {
      activeCount := activeCount + 1;
      active := active[vm.id := vm];
    }

    method ReplenishOne(restored: bool)
      modifies this
      ensures Fields() == ReplenishAlone(poolSize, old(Fields()), restored)
    {
      if |ready| >= poolSize {
        return;
      }
      var vm := RestoreOne(restored);
      if vm.Some? {
        ready := ready + [vm.value];
      }
    }
  }

  // ------------------------------------------- one task alone is a run

  lemma Then(poolSize: nat, s: State, step: Step) returns (r: State)
    requires Reachable(poolSize, s) && Enabled(s, step)
    ensures r == Do(poolSize, s, step) && Reachable(poolSize, r)
  {
    r := Do(poolSize, s, step);
    Extend(poolSize, s, step);
  }

  /** Id and CID are taken without a step of another task in between. */
  lemma FetchRefines(poolSize: nat, s: State, t: TaskId, w: Purpose) returns (r: State)
    requires Reachable(poolSize, s) && t in s.tasks && s.tasks[t] == LoadId(w)
    ensures Reachable(poolSize, r) && r.sh == Issued(s.sh) && r.tasks == s.tasks[t := Booting(w, NextVm(s.sh))]
  {
    r := Then(poolSize, s, Restore(t, Load));
    assert r.tasks[t] == FetchCid(w, s.sh.nextCid);
    r := Then(poolSize, r, Restore(t, Fetch));
  }

  lemma RestoreRefines(poolSize: nat, s: State, t: TaskId, w: Purpose, restored: bool) returns (r: State)
    requires Reachable(poolSize, s) && t in s.tasks && s.tasks[t] == LoadId(w)
    ensures Reachable(poolSize, r) && r.sh == Issued(s.sh)
    ensures if !restored then r.tasks == Onward(s, t, w).tasks
            else if w.Serve? then r.tasks == s.tasks[t := CountUp(w.c, NextVm(s.sh))]
            else r.tasks == s.tasks[t := Pushing(w, NextVm(s.sh))]
  {
    r := FetchRefines(poolSize, s, t, w);
    r := Then(poolSize, r, Restore(t, Boot(restored)));
    assert s.tasks[t := Booting(w, NextVm(s.sh))] - {t} == s.tasks - {t};
  }

  lemma ActivateRefines(poolSize: nat, s: State, t: TaskId, c: Client, vm: Vm) returns (r: State)
    requires Reachable(poolSize, s) && t in s.tasks && s.tasks[t] == CountUp(c, vm)
    ensures Reachable(poolSize, r) && r.sh == Activate(s.sh, vm) && r.tasks == s.tasks[t := InsertedTask(c, vm)]
  {
    r := Then(poolSize, s, Acquire(t, AddCount));
    r := Then(poolSize, r, Acquire(t, Insert));
  }

  lemma PopRefines(poolSize: nat, s: State, t: TaskId, c: Client) returns (r: State)
    requires Reachable(poolSize, s) && t in s.tasks && s.tasks[t] == Popping(c) && s.sh.ready != []
    ensures Reachable(poolSize, r) && r.sh == Activate(PopReady(s.sh), Last(s.sh.ready))
    ensures r.tasks == s.tasks[t := InsertedTask(c, Last(s.sh.ready))]
  {
    r := Then(poolSize, s, Acquire(t, Pop));
    r := ActivateRefines(poolSize, r, t, c, Last(s.sh.ready));
  }

  lemma EmptyPop(poolSize: nat, s: State, t: TaskId, c: Client) returns (r: State)
    requires Reachable(poolSize, s) && t in s.tasks && s.tasks[t] == Popping(c) && s.sh.ready == []
    ensures Reachable(poolSize, r) && r.sh == s.sh && r.tasks == s.tasks[t := LoadId(Serve(c))]
  {
    r := Then(poolSize, s, Acquire(t, Pop));
  }

  lemma FallbackRefines(poolSize: nat, s: State, t: TaskId, c: Client, restored: bool) returns (r: State)
    requires Reachable(poolSize, s) && t in s.tasks && s.tasks[t] == Popping(c) && s.sh.ready == []
    ensures Reachable(poolSize, r)
    ensures r.sh == if restored then Activate(Issued(s.sh), NextVm(s.sh)) else Issued(s.sh)
    ensures r.tasks == s.tasks[t := if restored then InsertedTask(c, NextVm(s.sh)) else Refused(c)]
  {
    r := EmptyPop(poolSize, s, t, c);
    r := RestoreRefines(poolSize, r, t, Serve(c), restored);
    if restored {
      r := ActivateRefines(poolSize, r, t, c, NextVm(s.sh));
    }
  }

  lemma AcquireRefines(poolSize: nat, s: State, t: TaskId, c: Client, restored: bool) returns (r: State)
    requires Reachable(poolSize, s) && t in s.tasks && s.tasks[t] == Popping(c)
    ensures Reachable(poolSize, r) && r.sh == AcquireAlone(s.sh, restored).0
    ensures r.tasks == s.tasks[t := match AcquireAlone(s.sh, restored).1
                                    case Some(vm) => InsertedTask(c, vm)
                                    case None => Refused(c)]
  {
    if s.sh.ready != [] {
      r := PopRefines(poolSize, s, t, c);
    } else {
      r := FallbackRefines(poolSize, s, t, c, restored);
    }
  }

  lemma ReleaseRefines(poolSize: nat, s: State, t: TaskId, c: Client, id: VmId) returns (r: State)
    requires Reachable(poolSize, s) && t in s.tasks && s.tasks[t] == Removing(c, id)
    ensures Reachable(poolSize, r) && r.sh == ReleaseAlone(s.sh, id)
    ensures r.tasks == s.tasks[t := Finished(c)]
  {
    r := Then(poolSize, s, Release(t, Remove));
    if id in s.sh.active {
      r := Then(poolSize, r, Release(t, SubCount));
    }
  }

  lemma PushRefines(poolSize: nat, s: State, t: TaskId, vm: Vm) returns (r: State)
    requires Reachable(poolSize, s) && t in s.tasks && s.tasks[t] == Pushing(Refill, vm)
    ensures Reachable(poolSize, r) && r.sh == PushReady(s.sh, vm) && r.tasks == s.tasks - {t}
  {
    r := Then(poolSize, s, Restore(t, Push));
  }

  lemma CheckRefines(poolSize: nat, s: State, t: TaskId) returns (r: State)
    requires Reachable(poolSize, s) && t in s.tasks && s.tasks[t] == Checking
    ensures Reachable(poolSize, r) && r.sh == s.sh
    ensures r.tasks == if |s.sh.ready| >= poolSize then s.tasks - {t} else s.tasks[t := LoadId(Refill)]
  {
    r := Then(poolSize, s, Control(t, Check));
  }

  lemma ReplenishRefines(poolSize: nat, s: State, t: TaskId, restored: bool) returns (r: State)
    requires Reachable(poolSize, s) && t in s.tasks && s.tasks[t] == Checking
    ensures Reachable(poolSize, r) && r.sh == ReplenishAlone(poolSize, s.sh, restored)
    ensures r.tasks == s.tasks - {t}
  {
    r := CheckRefines(poolSize, s, t);
    if |s.sh.ready| < poolSize {
      r := RestoreRefines(poolSize, r, t, Refill, restored);
      if restored {
        r := PushRefines(poolSize, r, t, NextVm(s.sh));
      }
      assert r.tasks == s.tasks - {t};
    }
  }

  // ------------------------------------------------------------------ start-up

  lemma FillHeadRefines(poolSize: nat, s: State, i: nat) returns (r: State)
    requires Reachable(poolSize, s) && s.tasks == map[0 := FillNext(i)] && i < poolSize
    ensures Reachable(poolSize, r) && r.sh == s.sh && r.tasks == map[0 := LoadId(Fill(i))]
  {
    r := Then(poolSize, s, Control(0, FillHead));
  }

  lemma FillPushRefines(poolSize: nat, s: State, i: nat, vm: Vm) returns (r: State)
    requires Reachable(poolSize, s) && s.tasks == map[0 := Pushing(Fill(i), vm)]
    ensures Reachable(poolSize, r) && r.sh == PushReady(s.sh, vm) && r.tasks == map[0 := FillNext(i + 1)]
  {
    r := Then(poolSize, s, Restore(0, Push));
  }

  lemma FillOneRefines(poolSize: nat, s: State, outcomes: nat -> bool, i: nat) returns (r: State)
    requires Reachable(poolSize, s) && s.tasks == map[0 := FillNext(i)] && i < poolSize
    ensures Reachable(poolSize, r) && r.tasks == map[0 := FillNext(i + 1)]
    ensures r.sh == if outcomes(i) then PushReady(Issued(s.sh), NextVm(s.sh)) else Issued(s.sh)
  {
    r := FillHeadRefines(poolSize, s, i);
    r := RestoreRefines(poolSize, r, 0, Fill(i), outcomes(i));
    if outcomes(i) {
      assert r.tasks == map[0 := Pushing(Fill(i), NextVm(s.sh))];
      r := FillPushRefines(poolSize, r, i, NextVm(s.sh));
    }
    assert r.tasks == map[0 := FillNext(i + 1)];
  }

  lemma {:induction false} FillRefines(poolSize: nat, s: State, outcomes: nat -> bool, sh: Shared, i: nat) returns (r: State)
    requires Reachable(poolSize, s) && s.tasks == map[0 := FillNext(i)] && i <= poolSize && s.sh == Filled(sh, outcomes, i)
    ensures Reachable(poolSize, r) && r.serving && r.tasks == map[] && r.sh == Filled(sh, outcomes, poolSize)
    decreases poolSize - i
  {
    if i == poolSize {
      r := Then(poolSize, s, Control(0, FillHead));
    } else {
      var mid := FillOneRefines(poolSize, s, outcomes, i);
      r := FillRefines(poolSize, mid, outcomes, sh, i + 1);
    }
  }

  /** The machine's start-up, for any outcomes of the restores, does what `Initialize` does to a new pool:
      the base VM takes a CID if it is made, then there is one restore for each slot. */
  lemma InitializeRefines(poolSize: nat, made: bool, outcomes: nat -> bool) returns (r: State)
    ensures Reachable(poolSize, r) && r.serving && r.tasks == map[]
    ensures var empty := Shared([], map[], 0, 3);
            r.sh == Filled(if made then Issued(empty) else empty, outcomes, poolSize)
  {
    var s := InitialState();
    assert Reaches(poolSize, s, [], s);
    s := Then(poolSize, s, Control(0, Base(made)));
    assert s.tasks == map[0 := FillNext(0)];
    r := FillRefines(poolSize, s, outcomes, s.sh, 0);
  }

  // ------------------------------------------------------------- the acquire request

  /** How the calls of an acquire request turn out: the image has a snapshot, the state directory can be
      made, the snapshot is restored, the network and the agent come up; the pool's own restore
      succeeds if it is needed, and the container runs. */
  datatype Turns = Turns(hit: bool, dirOk: bool, revived: bool, connected: bool, restored: bool, ran: bool)

  /** The warm path, up to a VM or an error, alone. */
  function WarmAlone(sh: Shared, no: nat, key: ImageKey, o: Turns): (Shared, Option<Vm>) {
    if !o.dirOk then (sh, None)
    else if !o.revived then AcquireAlone(Issued(sh), o.restored)
    else if !o.connected then (Issued(sh), None)
    else
      var vm := Vm(WarmVmId(key, no), sh.nextCid);
      (Activate(Issued(sh), vm), Some(vm))
  }

  lemma WarmIssueRefines(poolSize: nat, s: State, t: TaskId, c: Client, key: ImageKey) returns (r: State)
    requires Reachable(poolSize, s) && t in s.tasks && s.tasks[t] == WarmStart(c, key)
    ensures Reachable(poolSize, r) && r.sh == Issued(s.sh) && r.warmNo == s.warmNo + 1
    ensures r.tasks == s.tasks[t := WarmBoot(c, Vm(WarmVmId(key, s.warmNo), s.sh.nextCid))]
  {
    r := Then(poolSize, s, Warm(t, Take(true)));
    assert r.tasks[t] == WarmCid(c, key, s.warmNo) && r.sh == s.sh;
    r := Then(poolSize, r, Warm(t, TakeCid));
  }

  lemma WarmReviveRefines(poolSize: nat, s: State, t: TaskId, c: Client, vm: Vm, connected: bool) returns (r: State)
    requires Reachable(poolSize, s) && t in s.tasks && s.tasks[t] == WarmBoot(c, vm)
    ensures Reachable(poolSize, r) && r.sh == s.sh
    ensures r.tasks == s.tasks[t := if connected then CountUp(c, vm) else Refused(c)]
  {
    r := Then(poolSize, s, Warm(t, Revive(true)));
    assert r.tasks == s.tasks[t := WarmNet(c, vm)] && r.sh == s.sh;
    r := Then(poolSize, r, Warm(t, Connect(connected)));
  }

  lemma WarmConnectRefines(poolSize: nat, s: State, t: TaskId, c: Client, vm: Vm, connected: bool) returns (r: State)
    requires Reachable(poolSize, s) && t in s.tasks && s.tasks[t] == WarmBoot(c, vm)
    ensures Reachable(poolSize, r) && r.sh == if connected then Activate(s.sh, vm) else s.sh
    ensures r.tasks == s.tasks[t := if connected then InsertedTask(c, vm) else Refused(c)]
  {
    r := WarmReviveRefines(poolSize, s, t, c, vm, connected);
    if connected {
      r := ActivateRefines(poolSize, r, t, c, vm);
    }
  }

  lemma WarmFallbackRefines(poolSize: nat, s: State, t: TaskId, c: Client, vm: Vm, restored: bool) returns (r: State)
    requires Reachable(poolSize, s) && t in s.tasks && s.tasks[t] == WarmBoot(c, vm)
    ensures Reachable(poolSize, r) && r.sh == AcquireAlone(s.sh, restored).0
    ensures r.tasks == s.tasks[t := match AcquireAlone(s.sh, restored).1
                                    case Some(v) => InsertedTask(c, v)
                                    case None => Refused(c)]
  {
    r := Then(poolSize, s, Warm(t, Revive(false)));
    assert r.sh == s.sh && r.tasks == s.tasks[t := Popping(c)];
    r := AcquireRefines(poolSize, r, t, c, restored);
  }

  /** A warm acquire that runs alone: a failed restore falls back to the pool, a failure before or after
      it is an error, and success makes the warm VM active. */
  lemma WarmRefines(poolSize: nat, s: State, t: TaskId, c: Client, key: ImageKey, o: Turns) returns (r: State)
    requires Reachable(poolSize, s) && t in s.tasks && s.tasks[t] == WarmStart(c, key)
    ensures Reachable(poolSize, r) && r.sh == WarmAlone(s.sh, s.warmNo, key, o).0
    ensures r.tasks == s.tasks[t := match WarmAlone(s.sh, s.warmNo, key, o).1
                                    case Some(v) => InsertedTask(c, v)
                                    case None => Refused(c)]
  {
    if !o.dirOk {
      r := Then(poolSize, s, Warm(t, Take(false)));
    } else {
      r := WarmIssueRefines(poolSize, s, t, c, key);
      var vm := Vm(WarmVmId(key, s.warmNo), s.sh.nextCid);
      if o.revived {
        r := WarmConnectRefines(poolSize, r, t, c, vm, o.connected);
      } else {
        r := WarmFallbackRefines(poolSize, r, t, c, vm, o.restored);
      }
    }
  }

  /** The whole request: fields, warm counter, and the VM of the reply, if it is not an error. */
  function HandleAlone(sh: Shared, no: nat, key: ImageKey, o: Turns): (Shared, nat, Option<Vm>) {
    if o.hit && (!o.dirOk || o.revived) then
      var (sh', vm) := WarmAlone(sh, no, key, o);
      (sh', no + 1, vm)
    else
      var (sh', vm) := AcquireAlone(if o.hit then Issued(sh) else sh, o.restored);
      (sh', if o.hit then no + 1 else no, if o.ran then vm else None)
  }

  /** The daemon's side of `handle_acquire`. */
  class Daemon {
    const pool: Pool
    var warmCounter: nat

    constructor (pool: Pool)
      ensures this.pool == pool && warmCounter == 0
    {
      this.pool := pool;
      warmCounter := 0;
    }

    method HandleAcquire(key: ImageKey, o: Turns) returns (reply: Option<Vm>)
      modifies this, pool
      ensures (pool.Fields(), warmCounter, reply) == HandleAlone(old(pool.Fields()), old(warmCounter), key, o)
    {
      if o.hit {
        var no := warmCounter;
        warmCounter := warmCounter + 1;
        if !o.dirOk {
          return None;
        }
        var cid := pool.nextCid;
        pool.nextCid := pool.nextCid + 1;
        if o.revived {
          if !o.connected {
            return None;
          }
          var vm := Vm(WarmVmId(key, no), cid);
          pool.RegisterActive(vm);
          return Some(vm);
        }
      }
      reply := pool.Acquire(o.restored);
      if !o.ran {
        reply := None;
      }
    }
  }

  /** When a request is answered with a VM, and with which: a warm one exactly if the image has a snapshot,
      its restore and what follows succeed; one of the pool exactly if there was no such restore, the pool
      had or made a VM, and the container ran. Every hit uses up a warm number. */
  lemma HandleReplies(sh: Shared, no: nat, key: ImageKey, o: Turns)
    ensures var (sh', no', reply) := HandleAlone(sh, no, key, o);
            && no' == no + (if o.hit then 1 else 0)
            && (reply.Some? <==>
                  || (o.hit && o.dirOk && o.revived && o.connected)
                  || ((!o.hit || (o.dirOk && !o.revived)) && (sh.ready != [] || o.restored) && o.ran))
            && (o.hit && o.dirOk && o.revived && o.connected ==> reply == Some(Vm(WarmVmId(key, no), sh.nextCid)))
            && (!o.hit && sh.ready != [] && o.ran ==> reply == Some(sh.ready[|sh.ready| - 1]))
  {
  }

  /** With fresh ids, neither a ready VM nor the next one has the id of an active VM. */
  lemma FreeIds(poolSize: nat, s: State)
    requires Reachable(poolSize, s) && s.clashes == 0
    ensures forall i :: 0 <= i < |s.sh.ready| ==> s.sh.ready[i].id !in s.sh.active
    ensures forall n :: n >= s.sh.nextCid ==> PoolVmId(n) !in s.sh.active
  {
    ReachableInv(poolSize, s);
    forall i | 0 <= i < |s.sh.ready| ensures s.sh.ready[i].id !in s.sh.active {
      assert Recorded(s.ledger, s.sh.ready[i], InReady);
      OnlyItsId(s, s.sh.ready[i].cid);
    }
    forall n | n >= s.sh.nextCid ensures PoolVmId(n) !in s.sh.active {
      assert PoolVmId(n) in s.sh.active ==> Recorded(s.ledger, s.sh.active[PoolVmId(n)], InActive);
    }
  }

  /** In every reachable state with fresh ids, a request answers with an error and yet leaves a VM active
      that nobody was told of if and only if a VM came from the pool and the container did not run. */
  lemma ErrorStrands(poolSize: nat, s: State, no: nat, key: ImageKey, o: Turns)
    requires Reachable(poolSize, s) && s.clashes == 0
    ensures var (sh', _, reply) := HandleAlone(s.sh, no, key, o);
            reply.None? && sh'.active != s.sh.active <==>
            (!o.hit || (o.dirOk && !o.revived)) && (s.sh.ready != [] || o.restored) && !o.ran
  {
    FreeIds(poolSize, s);
    var from := if o.hit then Issued(s.sh) else s.sh;
    var (sh', vm) := AcquireAlone(from, o.restored);
    assert vm.Some? ==> vm.value.id in sh'.active && vm.value.id !in s.sh.active;
  }
}
