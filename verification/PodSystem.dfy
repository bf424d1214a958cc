/** Shims, request handlers, shadows and the pool as one system.

    Each pod has the shim state of crates/shim/src/instance.rs; its handlers run one at a time and
    talk to the daemon by requests whose replies are never lost. Handlers of different pods, the
    daemon tasks they start, replenishers and shadow VMs interleave freely. */
module PodSystem {
  import opened Basics
  import opened PoolMachine

  type InstanceId = string

  /** `SharedVmState`: the container count and the VM id the daemon returned, if any. */
  datatype SharedVm = SharedVm(count: int, vm: Option<VmId>)

  /** The request the pod's shim is waiting for, with the daemon task that serves it. */
  datatype Waiting = Idle | ForVm(inst: InstanceId, t: TaskId) | ForRelease(t: TaskId)

  datatype Pod = Pod(
    entry: Option<SharedVm>,       // the pod's slot in VMS
    waiting: Waiting,
    // bookkeeping
    live: set<InstanceId>,         // started and not deleted
    seen: set<InstanceId>,
    got: nat,                      // VMs received from the daemon
    gave: nat,                     // release requests sent for them
    strays: nat)                   // deletes of instances that were not live

  datatype Owner = ByTask(t: TaskId) | ByShim(p: PodId) | Stranded

  datatype System = System(
    pool: State,
    pods: map<PodId, Pod>,
    // bookkeeping
    owner: map<VmId, Owner>,       // who is responsible for each active VM
    errors: nat)                   // error returns after a successful acquire

  function InitialSystem(): System {
    System(InitialState(), map[], map[], 0)
  }

  // ------------------------------------------- shim handlers, as functions

  function StartSandboxEntry(): SharedVm {
    SharedVm(1, None)
  }

  /** First container: the new state copies the count, then the count is incremented. */
  function AcquiredEntry(sv: SharedVm, id: VmId): SharedVm {
    SharedVm(sv.count + 1, Some(id))
  }

  function AddedEntry(sv: SharedVm): SharedVm {
    sv.(count := sv.count + 1)
  }

  function DeletedEntry(sv: SharedVm): SharedVm {
    sv.(count := sv.count - 1)
  }

  /** `prev <= 1` in `delete`. */
  predicate DeleteReleases(sv: SharedVm) {
    sv.count <= 1
  }

  /** A kill of the sandbox itself by SIGKILL or SIGTERM ends it; any other signal is passed on. */
  predicate KillEnds(p: PodId, inst: InstanceId, signal: nat) {
    inst == p && (signal == 9 || signal == 15)
  }

  // -------------------------------------------------------------- task roles

  function ClientOf(task: Task): Option<Client> {
    if PurposeOf(task).Some? then (if task.w.Serve? then Some(task.w.c) else None)
    else if task.Starting? || task.FillNext? || task.Checking? then None
    else Some(task.c)
  }

  /** What a task means to the rest of the system. */
  datatype Role = Role(
    client: Option<Client>,
    release: bool,               // serves a release rather than an acquire
    removing: Option<VmId>,      // about to remove this id from the active map
    held: Option<VmId>)          // responsible for this active VM

  function Held(task: Task): Option<VmId> {
    if task.Holding? || task.Running? || task.Replying? then Some(task.vm.id)
    else if task.Removing? && task.c.ShadowClient? then Some(task.id)
    else None
  }

  function RoleOf(task: Task): Role {
    Role(ClientOf(task),
         task.Removing? || task.CountDown? || task.Finished?,
         if task.Removing? then Some(task.id) else None,
         Held(task))
  }

  const NO_ROLE := Role(None, false, None, None)

  function RoleAt(tasks: map<TaskId, Task>, t: TaskId): Role {
    if t in tasks then RoleOf(tasks[t]) else NO_ROLE
  }

  // ------------------------------------------------------------------- steps

  datatype DaemonStep =
    | Internal(step: Step)                 // pool steps that change no ownership
    | Grant(t: TaskId)                     // the insert of acquire or register_active
    | Withdraw(t: TaskId)                  // the remove of release
    | Admit(t: TaskId, refill: TaskId, shadow: Option<(TaskId, ImageKey)>)
    | RunDone(t: TaskId, ok: bool)         // run_container_in_vm returned
    | ShadowDone(t: TaskId, ok: bool)      // the shadow published and releases, or failed and returns
    | ShadowGone(t: TaskId)

  datatype ShimStep =
    | StartSandbox(p: PodId)
    | FirstContainer(p: PodId, inst: InstanceId, t: TaskId, warm: Option<ImageKey>)
    | Acquired(p: PodId)
    | AcquireFailed(p: PodId)
    | AddContainer(p: PodId, inst: InstanceId, ok: bool)
    | DeleteInstance(p: PodId, inst: InstanceId, t: TaskId)
    | KillInstance(p: PodId, inst: InstanceId, signal: nat, t: TaskId)
    | ReleaseDone(p: PodId)

  datatype SystemStep = Daemon(d: DaemonStep) | Shim(m: ShimStep)

  predicate OwnershipFree(step: Step) {
    || step.Control? || step.Restore? || step.Warm?
    || (step.Acquire? && !step.a.Insert?)
    || (step.Release? && step.l.SubCount?)
  }

  predicate DaemonEnabled(s: System, d: DaemonStep) {
    match d
    case Internal(step) => OwnershipFree(step) && Enabled(s.pool, step)
    case Grant(t) => t in s.pool.tasks && s.pool.tasks[t].Inserting?
    case Withdraw(t) => t in s.pool.tasks && s.pool.tasks[t].Removing?
    case Admit(t, refill, shadow) =>
      && s.pool.serving
      && t in s.pool.tasks && s.pool.tasks[t].Holding? && s.pool.tasks[t].c.PodClient?
      && refill !in s.pool.tasks
      && (shadow.Some? ==> shadow.value.0 !in s.pool.tasks && shadow.value.0 != refill)
    case RunDone(t, _) => t in s.pool.tasks && s.pool.tasks[t].Running?
    case ShadowDone(t, _) => t in s.pool.tasks && s.pool.tasks[t].Holding? && s.pool.tasks[t].c.ShadowClient?
    case ShadowGone(t) =>
      t in s.pool.tasks && (s.pool.tasks[t].Refused? || s.pool.tasks[t].Finished?) && s.pool.tasks[t].c.ShadowClient?
  }

  predicate Free(s: System, p: PodId) {
    p in s.pods && s.pods[p].waiting.Idle?
  }

  predicate ShimEnabled(s: System, m: ShimStep) {
    match m
    case StartSandbox(p) => p !in s.pods
    case FirstContainer(p, inst, t, _) =>
      && Free(s, p) && inst !in s.pods[p].seen && s.pool.serving && t !in s.pool.tasks
      && s.pods[p].entry.Some? && s.pods[p].entry.value.vm.None?
    case Acquired(p) =>
      && p in s.pods && s.pods[p].waiting.ForVm? && s.pods[p].entry.Some?
      && s.pods[p].waiting.t in s.pool.tasks && s.pool.tasks[s.pods[p].waiting.t].Replying?
    case AcquireFailed(p) =>
      && p in s.pods && s.pods[p].waiting.ForVm?
      && s.pods[p].waiting.t in s.pool.tasks && s.pool.tasks[s.pods[p].waiting.t].Refused?
    case AddContainer(p, inst, ok) =>
      && Free(s, p) && inst !in s.pods[p].seen
      && s.pods[p].entry.Some? && s.pods[p].entry.value.vm.Some?
      && (ok ==> s.pods[p].entry.value.vm.value in s.pool.sh.active)
    case DeleteInstance(p, inst, t) =>
      Free(s, p) && s.pool.serving && t !in s.pool.tasks
    case KillInstance(p, _, _, t) =>
      Free(s, p) && s.pool.serving && t !in s.pool.tasks
    case ReleaseDone(p) =>
      && p in s.pods && s.pods[p].waiting.ForRelease?
      && s.pods[p].waiting.t in s.pool.tasks && s.pool.tasks[s.pods[p].waiting.t].Finished?
  }

  predicate SystemEnabled(s: System, step: SystemStep) {
    match step
    case Daemon(d) => DaemonEnabled(s, d)
    case Shim(m) => ShimEnabled(s, m)
  }

  ghost function DoDaemon(poolSize: nat, s: System, d: DaemonStep): System
    requires DaemonEnabled(s, d)
  {
    match d
    case Internal(step) => s.(pool := Do(poolSize, s.pool, step))
    case Grant(t) =>
      s.(pool := DoAcquire(s.pool, t, Insert), owner := s.owner[s.pool.tasks[t].vm.id := ByTask(t)])
    case Withdraw(t) =>
      s.(pool := DoRelease(s.pool, t, Remove), owner := s.owner - {s.pool.tasks[t].id})
    case Admit(t, refill, shadow) => s.(pool := Admitted(s.pool, t, refill, shadow))
    case RunDone(t, ok) =>
      var k := s.pool.tasks[t];
      if ok then s.(pool := At(s.pool, t, Replying(k.c, k.vm)))
      else s.(pool := At(s.pool, t, Refused(k.c)), owner := s.owner[k.vm.id := Stranded], errors := s.errors + 1)
    case ShadowDone(t, ok) =>
      var k := s.pool.tasks[t];
      if ok then s.(pool := At(s.pool, t, Removing(k.c, k.vm.id)))
      else s.(pool := Ended(s.pool, t), owner := s.owner[k.vm.id := Stranded], errors := s.errors + 1)
    case ShadowGone(t) => s.(pool := Ended(s.pool, t))
  }

  /** `handle_acquire` after a pool acquire: spawn a replenisher and perhaps a shadow, then run the container. */
  function Admitted(pool: State, t: TaskId, refill: TaskId, shadow: Option<(TaskId, ImageKey)>): State
    requires t in pool.tasks && pool.tasks[t].Holding?
  {
    var k := pool.tasks[t];
    var p1 := At(At(pool, t, Running(k.c, k.vm)), refill, Checking);
    if shadow.Some? then At(p1, shadow.value.0, Popping(ShadowClient(shadow.value.1))) else p1
  }

  function SetPod(s: System, p: PodId, pod: Pod): System {
    s.(pods := s.pods[p := pod])
  }

  /** The release request: the daemon answers an empty vm_id with an error at once. */
  function ReleaseTask(p: PodId, vm: Option<VmId>): Task {
    if vm.Some? then Removing(PodClient(p), vm.value) else Finished(PodClient(p))
  }

  function SendRelease(s: System, p: PodId, t: TaskId, pod: Pod, vm: Option<VmId>): System {
    SetPod(s.(pool := At(s.pool, t, ReleaseTask(p, vm))), p,
           pod.(waiting := ForRelease(t), gave := pod.gave + if vm.Some? then 1 else 0))
  }

  function DoShim(s: System, m: ShimStep): System
    requires ShimEnabled(s, m)
  {
    match m
    case StartSandbox(p) => SetPod(s, p, Pod(Some(StartSandboxEntry()), Idle, {p}, {p}, 0, 0, 0))
    case FirstContainer(p, inst, t, warm) =>
      var task := if warm.Some? then WarmStart(PodClient(p), warm.value) else Popping(PodClient(p));
      SetPod(s.(pool := At(s.pool, t, task)), p,
             s.pods[p].(waiting := ForVm(inst, t), seen := s.pods[p].seen + {inst}))
    case Acquired(p) =>
      var pod := s.pods[p];
      var id := s.pool.tasks[pod.waiting.t].vm.id;
      SetPod(s.(pool := Ended(s.pool, pod.waiting.t), owner := s.owner[id := ByShim(p)]), p,
             pod.(entry := Some(AcquiredEntry(pod.entry.value, id)), waiting := Idle,
                  live := pod.live + {pod.waiting.inst}, got := pod.got + 1))
    case AcquireFailed(p) =>
      SetPod(s.(pool := Ended(s.pool, s.pods[p].waiting.t)), p, s.pods[p].(waiting := Idle))
    case AddContainer(p, inst, ok) =>
      var pod := s.pods[p].(seen := s.pods[p].seen + {inst});
      SetPod(s, p, if ok then pod.(entry := Some(AddedEntry(pod.entry.value)), live := pod.live + {inst}) else pod)
    case DeleteInstance(p, inst, t) =>
      var pod := s.pods[p].(live := s.pods[p].live - {inst},
                            strays := s.pods[p].strays + if inst in s.pods[p].live then 0 else 1);
      if pod.entry.None? then SetPod(s, p, pod)
      else
        var sv := pod.entry.value;
        var pod' := pod.(entry := Some(DeletedEntry(sv)));
        if DeleteReleases(sv) then SendRelease(s, p, t, pod', sv.vm) else SetPod(s, p, pod')
    case KillInstance(p, inst, signal, t) =>
      var pod := s.pods[p];
      if pod.entry.None? || !KillEnds(p, inst, signal) then s
      else if pod.entry.value.vm.Some? then SendRelease(s, p, t, pod, pod.entry.value.vm)
      else SetPod(s, p, pod.(entry := None))
    case ReleaseDone(p) =>
      SetPod(s.(pool := Ended(s.pool, s.pods[p].waiting.t)), p, s.pods[p].(entry := None, waiting := Idle))
  }

  ghost function DoSystem(poolSize: nat, s: System, step: SystemStep): System
    requires SystemEnabled(s, step)
  {
    match step
    case Daemon(d) => DoDaemon(poolSize, s, d)
    case Shim(m) => DoShim(s, m)
  }

  ghost predicate SystemReaches(poolSize: nat, s: System, run: seq<SystemStep>, r: System)
    decreases |run|
  {
    if run == [] then r == s
    else SystemEnabled(s, run[0]) && SystemReaches(poolSize, DoSystem(poolSize, s, run[0]), run[1..], r)
  }

  // -------------------------------------------------------------- invariants

  /** Each daemon task that serves a pod is the one the pod's shim waits for, and conversely. */
  ghost predicate RpcInv(tasks: map<TaskId, Task>, pods: map<PodId, Pod>) {
    && (forall t :: t in tasks ==> var r := RoleOf(tasks[t]);
          r.client.Some? && r.client.value.PodClient? ==>
            && r.client.value.pod in pods
            && var pod := pods[r.client.value.pod];
               && !pod.waiting.Idle? && pod.waiting.t == t && pod.waiting.ForRelease? == r.release
               && (r.removing.Some? ==> pod.entry.Some? && pod.entry.value.vm == r.removing))
    && (forall p :: p in pods && !pods[p].waiting.Idle? ==>
          pods[p].waiting.t in tasks && RoleOf(tasks[pods[p].waiting.t]).client == Some(PodClient(p)))
  }

  /** The count is the number of live instances less the deletes of instances that were not live. */
  ghost predicate PodInv(pod: Pod) {
    && pod.live <= pod.seen
    && (pod.waiting.ForVm? ==> pod.waiting.inst in pod.seen && pod.waiting.inst !in pod.live)
    && match pod.entry
       case None => pod.waiting.Idle? && pod.gave == pod.got <= 1
       case Some(sv) =>
         && sv.count == |pod.live| - pod.strays
         && pod.got == One(sv.vm.Some?)
         && pod.gave == One(pod.waiting.ForRelease? && sv.vm.Some?)
         && (!pod.waiting.ForRelease? ==> sv.count >= 1)
         && (pod.waiting.ForVm? ==> sv.vm.None?)
  }

  ghost predicate PodsInv(pods: map<PodId, Pod>) {
    forall p :: p in pods ==> PodInv(pods[p])
  }

  /** The pod's VM is still its own: registered, and not yet removed by a release in progress. */
  predicate Keeps(tasks: map<TaskId, Task>, pod: Pod) {
    && pod.entry.Some? && pod.entry.value.vm.Some?
    && (pod.waiting.ForRelease? ==> RoleAt(tasks, pod.waiting.t).removing.Some?)
  }

  ghost predicate OwnerInv(tasks: map<TaskId, Task>, pods: map<PodId, Pod>, owner: map<VmId, Owner>) {
    && (forall id :: id in owner ==>
          match owner[id]
          case ByTask(t) => t in tasks && Held(tasks[t]) == Some(id)
          case ByShim(p) => p in pods && Keeps(tasks, pods[p]) && pods[p].entry.value.vm == Some(id)
          case Stranded => true)
    && (forall t :: t in tasks && Held(tasks[t]).Some? ==>
          Held(tasks[t]).value in owner && owner[Held(tasks[t]).value] == ByTask(t))
    && (forall p :: p in pods && Keeps(tasks, pods[p]) ==>
          pods[p].entry.value.vm.value in owner && owner[pods[p].entry.value.vm.value] == ByShim(p))
  }

  ghost function StrandedIn(owner: map<VmId, Owner>): set<VmId> {
    set id | id in owner && owner[id].Stranded?
  }

  ghost predicate OwnedInv(s: System) {
    && s.owner.Keys == s.pool.sh.active.Keys
    && OwnerInv(s.pool.tasks, s.pods, s.owner)
    && |StrandedIn(s.owner)| == s.errors
  }

  ghost predicate SystemInv(s: System) {
    && RpcInv(s.pool.tasks, s.pods)
    && PodsInv(s.pods)
    && (s.pool.overwritten == {} ==> OwnedInv(s))
  }
}
