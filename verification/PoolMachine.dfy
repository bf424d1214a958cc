/** The daemon's VM pool (crates/daemon/src/pool.rs) as a concurrent step machine.

    Every lock section and every atomic operation of the pool is one step; each
    asynchronous task carries a program counter, and any task may take the next
    step. A run is any sequence of enabled steps, so the invariants below hold in
    every interleaving. Ghost bookkeeping (the ledger of VMs, the log of issued
    CIDs, the number of id clashes) never influences which steps are enabled. */
module PoolMachine {
  import opened Basics

  type ImageKey = string
  type PodId = string
  type TaskId = nat

  /** `pool-<pid>-<n>` and `warm-<key>-<no>`; the process id is fixed for a run. */
  datatype VmId = PoolVmId(n: nat) | WarmVmId(key: ImageKey, no: nat)

  datatype Vm = Vm(id: VmId, cid: nat)

  /** The fields of `Pool` that the tasks share. */
  datatype Shared = Shared(ready: seq<Vm>, active: map<VmId, Vm>, count: int, nextCid: nat)

  const FIRST_CID: nat := 3

  // ---------------------------------------------------------------- sections

  /** `ready.lock().pop()` on a non-empty vector. */
  function PopReady(sh: Shared): Shared
    requires sh.ready != []
  {
    sh.(ready := sh.ready[..|sh.ready| - 1])
  }

  function PushReady(sh: Shared, vm: Vm): Shared {
    sh.(ready := sh.ready + [vm])
  }

  function AddActive(sh: Shared, vm: Vm): Shared {
    sh.(active := sh.active[vm.id := vm])
  }

  function RemoveActive(sh: Shared, id: VmId): Shared {
    sh.(active := sh.active - {id})
  }

  function Last(vms: seq<Vm>): Vm
    requires vms != []
  {
    vms[|vms| - 1]
  }

  // ------------------------------------------------------------------- tasks

  datatype Client = PodClient(pod: PodId) | ShadowClient(key: ImageKey)

  /** Why a VM is being restored: start-up fill, replenishment, or a caller of `acquire`. */
  datatype Purpose = Fill(i: nat) | Refill | Serve(c: Client)

  datatype Task =
    | Starting                            // initialize: before the base snapshot check
    | FillNext(i: nat)                    // initialize: head of the fill loop
    | LoadId(w: Purpose)                  // restore_one: before reading next_cid for the id
    | FetchCid(w: Purpose, n: nat)        // restore_one: id chosen, before fetch_add
    | Booting(w: Purpose, vm: Vm)         // restore_one: hypervisor calls
    | Pushing(w: Purpose, vm: Vm)         // before ready.push
    | Checking                            // replenish_one: before the length check
    | Popping(c: Client)                  // acquire: before ready.pop
    | CountUp(c: Client, vm: Vm)          // before active_count.fetch_add
    | Inserting(c: Client, vm: Vm)        // before active.insert
    | Holding(c: Client, vm: Vm)          // acquire returned a pool VM
    | Running(c: Client, vm: Vm)          // handle_acquire: run_container_in_vm
    | Replying(c: Client, vm: Vm)         // successful reply on its way
    | Refused(c: Client)                  // error reply on its way
    | Removing(c: Client, id: VmId)       // release: before active.remove
    | CountDown(c: Client, id: VmId)      // release: removed, before fetch_sub
    | Finished(c: Client)                 // release done
    | WarmStart(c: Client, key: ImageKey)           // before WARM_COUNTER.fetch_add
    | WarmCid(c: Client, key: ImageKey, no: nat)    // before next_cid_pub
    | WarmBoot(c: Client, vm: Vm)                   // restore_from_snapshot
    | WarmNet(c: Client, vm: Vm)                    // networking, before register_active

  /** Ledger entry of a VM: where it is, or how it left the pool. */
  datatype Place = InTask(t: TaskId) | InReady | InActive | Released | Failed | Orphaned | Overwritten

  /** Ledger record of the VM with a given CID. */
  datatype Record = Record(vm: Vm, place: Place)

  type Ledger = map<nat, Record>

  datatype State = State(
    sh: Shared,
    warmNo: nat,
    tasks: map<TaskId, Task>,
    serving: bool,
    // bookkeeping
    ledger: Ledger,
    issued: seq<nat>,
    granted: seq<Vm>,         // VMs handed to a caller, oldest first
    overwritten: set<Vm>,
    clashes: nat,
    peak: nat,
    warmCids: map<nat, nat>)

  function InitialState(): State {
    State(Shared([], map[], 0, FIRST_CID), 0, map[0 := Starting], false,
          map[], [], [], {}, 0, 0, map[])
  }

  /** The VM a task carries that is neither ready nor active. */
  function Carried(task: Task): Option<Vm> {
    if task.Booting? || task.Pushing? || task.CountUp? || task.Inserting? || task.WarmBoot? || task.WarmNet?
    then Some(task.vm) else None
  }

  function PurposeOf(task: Task): Option<Purpose> {
    if task.LoadId? || task.FetchCid? || task.Booting? || task.Pushing? then Some(task.w) else None
  }

  /** The replenishers that are past the length check and have not pushed yet. */
  predicate Refilling(task: Task) {
    PurposeOf(task) == Some(Refill)
  }

  /** Between the counter add and the insert. */
  predicate Counted(task: Task) {
    task.Inserting?
  }

  /** Between the remove and the counter subtract. */
  predicate Uncounting(task: Task) {
    task.CountDown?
  }

  predicate InFlight(task: Task) {
    Counted(task) || Uncounting(task)
  }

  // ------------------------------------------------------------------- steps

  datatype ControlStep = Base(create: bool) | FillHead | Check
  datatype RestoreStep = Load | Fetch | Boot(ok: bool) | Push
  datatype AcquireStep = Pop | AddCount | Insert
  datatype ReleaseStep = Remove | SubCount
  datatype WarmStep = Take(dirOk: bool) | TakeCid | Revive(ok: bool) | Connect(ok: bool)

  /** Moves of a request handler or a shadow while its VM stays active, and task creation and end. */
  datatype HandlerStep = Move(to: Task) | Spawn(task: Task) | Drop

  datatype Step =
    | Control(t: TaskId, c: ControlStep)
    | Restore(t: TaskId, r: RestoreStep)
    | Acquire(t: TaskId, a: AcquireStep)
    | Release(t: TaskId, l: ReleaseStep)
    | Warm(t: TaskId, w: WarmStep)
    | Handler(t: TaskId, h: HandlerStep)

  predicate MayMove(from: Task, to: Task) {
    match from
    case Holding(c, vm) => to == Running(c, vm) || to == Removing(c, vm.id)
    case Running(c, vm) => to == Replying(c, vm) || to == Refused(c)
    case _ => false
  }

  predicate MaySpawn(task: Task) {
    task.Popping? || task.WarmStart? || task.Removing? || task.Checking? || task.Finished?
  }

  predicate MayDrop(task: Task) {
    task.Holding? || task.Running? || task.Replying? || task.Refused? || task.Finished?
  }

  predicate ControlEnabled(task: Task, c: ControlStep) {
    match c
    case Base(_) => task.Starting?
    case FillHead => task.FillNext?
    case Check => task.Checking?
  }

  predicate RestoreEnabled(task: Task, r: RestoreStep) {
    match r
    case Load => task.LoadId?
    case Fetch => task.FetchCid?
    case Boot(_) => task.Booting?
    case Push => task.Pushing?
  }

  predicate AcquireEnabled(task: Task, a: AcquireStep) {
    match a
    case Pop => task.Popping?
    case AddCount => task.CountUp?
    case Insert => task.Inserting?
  }

  predicate ReleaseEnabled(task: Task, l: ReleaseStep) {
    match l
    case Remove => task.Removing?
    case SubCount => task.CountDown?
  }

  predicate WarmEnabled(task: Task, w: WarmStep) {
    match w
    case Take(_) => task.WarmStart?
    case TakeCid => task.WarmCid?
    case Revive(_) => task.WarmBoot?
    case Connect(_) => task.WarmNet?
  }

  predicate HandlerEnabled(s: State, t: TaskId, h: HandlerStep) {
    match h
    case Move(to) => t in s.tasks && MayMove(s.tasks[t], to)
    case Spawn(task) => s.serving && t !in s.tasks && MaySpawn(task)
    case Drop => t in s.tasks && MayDrop(s.tasks[t])
  }

  predicate Enabled(s: State, step: Step) {
    match step
    case Control(t, c) => t in s.tasks && ControlEnabled(s.tasks[t], c)
    case Restore(t, r) => t in s.tasks && RestoreEnabled(s.tasks[t], r)
    case Acquire(t, a) => t in s.tasks && AcquireEnabled(s.tasks[t], a)
    case Release(t, l) => t in s.tasks && ReleaseEnabled(s.tasks[t], l)
    case Warm(t, w) => t in s.tasks && WarmEnabled(s.tasks[t], w)
    case Handler(t, h) => HandlerEnabled(s, t, h)
  }

  function At(s: State, t: TaskId, task: Task): State {
    s.(tasks := s.tasks[t := task])
  }

  function Ended(s: State, t: TaskId): State {
    s.(tasks := s.tasks - {t})
  }

  function Placed(s: State, vm: Vm, place: Place): State {
    s.(ledger := s.ledger[vm.cid := Record(vm, place)])
  }

  function Issue(s: State): State {
    s.(sh := s.sh.(nextCid := s.sh.nextCid + 1), issued := s.issued + [s.sh.nextCid])
  }

  /** What follows a failed restore or a push, by purpose: next loop iteration, end of task, or error reply. */
  function Onward(s: State, t: TaskId, w: Purpose): State {
    match w
    case Fill(i) => At(s, t, FillNext(i + 1))
    case Refill => Ended(s, t)
    case Serve(c) => At(s, t, Refused(c))
  }

  ghost function Where(tasks: map<TaskId, Task>, p: Task -> bool): set<TaskId> {
    set t | t in tasks && p(tasks[t])
  }

  ghost function Count(tasks: map<TaskId, Task>, p: Task -> bool): nat {
    |Where(tasks, p)|
  }

  function InsertedTask(c: Client, vm: Vm): Task {
    if vm.id.WarmVmId? then Replying(c, vm) else Holding(c, vm)
  }

  ghost function DoCheck(poolSize: nat, s: State, t: TaskId): State {
    if |s.sh.ready| >= poolSize then Ended(s, t)
    else
      var s1 := At(s, t, LoadId(Refill));
      s1.(peak := Max(s.peak, Count(s1.tasks, Refilling)))
  }

  function DoPop(s: State, t: TaskId, c: Client): State {
    if s.sh.ready == [] then At(s, t, LoadId(Serve(c)))
    else
      var vm := Last(s.sh.ready);
      Placed(At(s.(sh := PopReady(s.sh)), t, CountUp(c, vm)), vm, InTask(t))
  }

  function DoFetch(s: State, t: TaskId, w: Purpose, n: nat): State {
    var vm := Vm(PoolVmId(n), s.sh.nextCid);
    var s1 := Placed(At(Issue(s), t, Booting(w, vm)), vm, InTask(t));
    s1.(clashes := s.clashes + if n == s.sh.nextCid then 0 else 1)
  }

  function DoBoot(s: State, t: TaskId, w: Purpose, vm: Vm, ok: bool): State {
    if !ok then Onward(Placed(s, vm, Failed), t, w)
    else match w
      case Serve(c) => At(s, t, CountUp(c, vm))
      case _ => At(s, t, Pushing(w, vm))
  }

  function DoPush(s: State, t: TaskId, w: Purpose, vm: Vm): State {
    Onward(Placed(s.(sh := PushReady(s.sh, vm)), vm, InReady), t, w)
  }

  /** The VM that an insert under `id` displaces, if any, leaves the active map. */
  function Displaced(s: State, id: VmId): State {
    if id !in s.sh.active then s else
      Placed(s.(sh := RemoveActive(s.sh, id)), s.sh.active[id], Overwritten).(overwritten := s.overwritten + {s.sh.active[id]})
  }

  function DoInsert(s: State, t: TaskId, c: Client, vm: Vm): State {
    var s1 := At(Displaced(s, vm.id).(sh := AddActive(s.sh, vm)), t, InsertedTask(c, vm));
    Placed(s1, vm, InActive).(granted := s.granted + [vm])
  }

  function DoRemove(s: State, t: TaskId, c: Client, id: VmId): State {
    if id in s.sh.active then
      Placed(At(s.(sh := RemoveActive(s.sh, id)), t, CountDown(c, id)), s.sh.active[id], Released)
    else
      At(s, t, Finished(c))
  }

  function DoWarmFetch(s: State, t: TaskId, c: Client, key: ImageKey, no: nat): State {
    var vm := Vm(WarmVmId(key, no), s.sh.nextCid);
    Placed(At(Issue(s), t, WarmBoot(c, vm)), vm, InTask(t)).(warmCids := s.warmCids[no := s.sh.nextCid])
  }

  function Max(a: int, b: int): int {
    if a < b then b else a
  }

  ghost function DoControl(poolSize: nat, s: State, t: TaskId, c: ControlStep): State
    requires t in s.tasks && ControlEnabled(s.tasks[t], c)
  {
    match c
    case Base(create) => At(if create then Issue(s) else s, t, FillNext(0))
    case FillHead =>
      var i := s.tasks[t].i;
      if i < poolSize then At(s, t, LoadId(Fill(i))) else Ended(s, t).(serving := true)
    case Check => DoCheck(poolSize, s, t)
  }

  function DoRestore(s: State, t: TaskId, r: RestoreStep): State
    requires t in s.tasks && RestoreEnabled(s.tasks[t], r)
  {
    var task := s.tasks[t];
    match r
    case Load => At(s, t, FetchCid(task.w, s.sh.nextCid))
    case Fetch => DoFetch(s, t, task.w, task.n)
    case Boot(ok) => DoBoot(s, t, task.w, task.vm, ok)
    case Push => DoPush(s, t, task.w, task.vm)
  }

  function DoAcquire(s: State, t: TaskId, a: AcquireStep): State
    requires t in s.tasks && AcquireEnabled(s.tasks[t], a)
  {
    var task := s.tasks[t];
    match a
    case Pop => DoPop(s, t, task.c)
    case AddCount => At(s.(sh := s.sh.(count := s.sh.count + 1)), t, Inserting(task.c, task.vm))
    case Insert => DoInsert(s, t, task.c, task.vm)
  }

  function DoRelease(s: State, t: TaskId, l: ReleaseStep): State
    requires t in s.tasks && ReleaseEnabled(s.tasks[t], l)
  {
    var task := s.tasks[t];
    match l
    case Remove => DoRemove(s, t, task.c, task.id)
    case SubCount => At(s.(sh := s.sh.(count := s.sh.count - 1)), t, Finished(task.c))
  }

  function DoWarm(s: State, t: TaskId, w: WarmStep): State
    requires t in s.tasks && WarmEnabled(s.tasks[t], w)
  {
    var task := s.tasks[t];
    match w
    case Take(dirOk) =>
      At(s.(warmNo := s.warmNo + 1), t, if dirOk then WarmCid(task.c, task.key, s.warmNo) else Refused(task.c))
    case TakeCid => DoWarmFetch(s, t, task.c, task.key, task.no)
    case Revive(ok) =>
      if ok then At(s, t, WarmNet(task.c, task.vm)) else At(Placed(s, task.vm, Failed), t, Popping(task.c))
    case Connect(ok) =>
      if ok then At(s, t, CountUp(task.c, task.vm)) else At(Placed(s, task.vm, Orphaned), t, Refused(task.c))
  }

  function DoHandler(s: State, t: TaskId, h: HandlerStep): State
    requires HandlerEnabled(s, t, h)
  {
    match h
    case Move(to) => At(s, t, to)
    case Spawn(task) => At(s, t, task)
    case Drop => Ended(s, t)
  }

  /** The effect of one step; `poolSize` is the configured target. */
  ghost function Do(poolSize: nat, s: State, step: Step): State
    requires Enabled(s, step)
  {
    match step
    case Control(t, c) => DoControl(poolSize, s, t, c)
    case Restore(t, r) => DoRestore(s, t, r)
    case Acquire(t, a) => DoAcquire(s, t, a)
    case Release(t, l) => DoRelease(s, t, l)
    case Warm(t, w) => DoWarm(s, t, w)
    case Handler(t, h) => DoHandler(s, t, h)
  }

  /** `run` is a sequence of enabled steps from `s` that ends in `r`. */
  ghost predicate Reaches(poolSize: nat, s: State, run: seq<Step>, r: State)
    decreases |run|
  {
    if run == [] then r == s
    else Enabled(s, run[0]) && Reaches(poolSize, Do(poolSize, s, run[0]), run[1..], r)
  }

  // -------------------------------------------------------------- invariants

  predicate Recorded(ledger: Ledger, vm: Vm, place: Place) {
    vm.cid in ledger && ledger[vm.cid] == Record(vm, place)
  }

  ghost predicate Keyed(ledger: Ledger) {
    forall c :: c in ledger ==> ledger[c].vm.cid == c
  }

  ghost predicate KeyInv(ledger: Ledger, nextCid: nat) {
    Keyed(ledger) && forall c :: c in ledger ==> FIRST_CID <= c < nextCid
  }

  ghost predicate ReadyInv(ready: seq<Vm>, ledger: Ledger) {
    && (forall i :: 0 <= i < |ready| ==> Recorded(ledger, ready[i], InReady))
    && (forall i, j :: 0 <= i < j < |ready| ==> ready[i] != ready[j])
    && (forall c :: c in ledger && ledger[c].place.InReady? ==> ledger[c].vm in ready)
  }

  ghost predicate TaskInv(tasks: map<TaskId, Task>, ledger: Ledger) {
    && (forall t :: t in tasks && Carried(tasks[t]).Some? ==> Recorded(ledger, Carried(tasks[t]).value, InTask(t)))
    && (forall c :: c in ledger && ledger[c].place.InTask? ==>
          ledger[c].place.t in tasks && Carried(tasks[ledger[c].place.t]) == Some(ledger[c].vm))
  }

  ghost predicate ActiveInv(active: map<VmId, Vm>, ledger: Ledger) {
    && (forall id :: id in active ==> active[id].id == id && Recorded(ledger, active[id], InActive))
    && (forall c :: c in ledger && ledger[c].place.InActive? ==>
          ledger[c].vm.id in active && active[ledger[c].vm.id] == ledger[c].vm)
  }

  ghost predicate OverwrittenInv(overwritten: set<Vm>, ledger: Ledger) {
    && (forall v :: v in overwritten ==> Recorded(ledger, v, Overwritten))
    && (forall c :: c in ledger && ledger[c].place.Overwritten? ==> ledger[c].vm in overwritten)
  }

  /** The places a VM can be in once a caller got it; it never leaves them for an earlier one. */
  predicate Granted(place: Place) {
    place.InActive? || place.Released? || place.Overwritten?
  }

  ghost predicate GrantInv(granted: seq<Vm>, ledger: Ledger) {
    && (forall i :: 0 <= i < |granted| ==>
          granted[i].cid in ledger && ledger[granted[i].cid].vm == granted[i] && Granted(ledger[granted[i].cid].place))
    && (forall i, j :: 0 <= i < j < |granted| ==> granted[i] != granted[j])
  }

  /** Every VM that was ever given a CID is recorded once, and the record says where it is. */
  ghost predicate LedgerInv(s: State) {
    && KeyInv(s.ledger, s.sh.nextCid)
    && ReadyInv(s.sh.ready, s.ledger)
    && TaskInv(s.tasks, s.ledger)
    && ActiveInv(s.sh.active, s.ledger)
    && OverwrittenInv(s.overwritten, s.ledger)
    && GrantInv(s.granted, s.ledger)
  }

  ghost predicate CidInv(s: State) {
    && s.sh.nextCid == FIRST_CID + |s.issued|
    && (forall i :: 0 <= i < |s.issued| ==> s.issued[i] == FIRST_CID + i)
  }

  ghost predicate CountInv(s: State) {
    s.sh.count == |s.sh.active| + Count(s.tasks, InFlight) + |s.overwritten|
  }

  ghost predicate WarmTaskInv(tasks: map<TaskId, Task>, warmNo: nat, warmCids: map<nat, nat>) {
    && (forall t :: t in tasks && tasks[t].WarmCid? ==> tasks[t].no < warmNo && tasks[t].no !in warmCids)
    && (forall t, u :: t in tasks && u in tasks && t != u && tasks[t].WarmCid? && tasks[u].WarmCid? ==>
          tasks[t].no != tasks[u].no)
  }

  ghost predicate WarmIdInv(ledger: Ledger, warmCids: map<nat, nat>) {
    forall c :: c in ledger && ledger[c].vm.id.WarmVmId? ==>
      ledger[c].vm.id.no in warmCids && warmCids[ledger[c].vm.id.no] == c
  }

  ghost predicate PoolIdInv(ledger: Ledger) {
    forall c :: c in ledger && ledger[c].vm.id.PoolVmId? ==> ledger[c].vm.id.n == c
  }

  /** Warm ids never repeat; pool ids never repeat unless an id read was overtaken. */
  ghost predicate IdInv(s: State) {
    && WarmTaskInv(s.tasks, s.warmNo, s.warmCids)
    && (forall no :: no in s.warmCids ==> no < s.warmNo)
    && WarmIdInv(s.ledger, s.warmCids)
    && (s.clashes == 0 ==> PoolIdInv(s.ledger) && s.overwritten == {})
  }

  ghost predicate StartupInv(poolSize: nat, s: State) {
    if s.serving then
      forall t :: t in s.tasks ==>
        && !s.tasks[t].Starting? && !s.tasks[t].FillNext?
        && (PurposeOf(s.tasks[t]).Some? ==> !PurposeOf(s.tasks[t]).value.Fill?)
        && (s.tasks[t].Pushing? ==> s.tasks[t].w == Refill)
    else
      && s.tasks.Keys == {0}
      && match s.tasks[0]
         case Starting => s.sh.ready == []
         case FillNext(i) => |s.sh.ready| <= i <= poolSize
         case k => PurposeOf(k).Some? && PurposeOf(k).value.Fill? && |s.sh.ready| <= PurposeOf(k).value.i < poolSize
  }

  function Capacity(poolSize: nat, k: nat): int {
    Max(poolSize, poolSize - 1 + k)
  }

  ghost predicate SizeInv(poolSize: nat, s: State) {
    && Count(s.tasks, Refilling) <= s.peak
    && |s.sh.ready| + Count(s.tasks, Refilling) <= Capacity(poolSize, s.peak)
  }

  ghost predicate Inv(poolSize: nat, s: State) {
    LedgerInv(s) && CidInv(s) && CountInv(s) && IdInv(s) && StartupInv(poolSize, s) && SizeInv(poolSize, s)
  }
}
