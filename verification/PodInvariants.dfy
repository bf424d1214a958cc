/** The invariants of the composed system hold in every state of every run. */
module PodInvariants {
  import opened Basics
  import opened PoolMachine
  import opened PoolInvariants
  import opened PodSystem

  // ------------------------------------------------- steps without a change of role

  /** A task that keeps its role disturbs neither requests nor ownership. */
  lemma RoleFrame(tasks: map<TaskId, Task>, tasks': map<TaskId, Task>, t: TaskId, pods: map<PodId, Pod>, owner: map<VmId, Owner>)
    requires OnlyTask(tasks, tasks', t) && RoleAt(tasks', t) == RoleAt(tasks, t)
    ensures RpcInv(tasks, pods) ==> RpcInv(tasks', pods)
    ensures OwnerInv(tasks, pods, owner) ==> OwnerInv(tasks', pods, owner)
  {
    forall u ensures RoleAt(tasks', u) == RoleAt(tasks, u) {}
  }

  lemma ControlRole(poolSize: nat, s: State, t: TaskId, x: ControlStep)
    requires t in s.tasks && ControlEnabled(s.tasks[t], x)
    ensures RoleAt(DoControl(poolSize, s, t, x).tasks, t) == RoleAt(s.tasks, t)
  {
  }

  lemma BootRole(s: State, t: TaskId, w: Purpose, vm: Vm, ok: bool)
    requires t in s.tasks && s.tasks[t] == Booting(w, vm)
    ensures RoleAt(DoBoot(s, t, w, vm, ok).tasks, t) == RoleAt(s.tasks, t)
  {
  }

  lemma PushRole(s: State, t: TaskId, w: Purpose, vm: Vm)
    requires t in s.tasks && s.tasks[t] == Pushing(w, vm)
    ensures RoleAt(DoPush(s, t, w, vm).tasks, t) == RoleAt(s.tasks, t)
  {
  }

  lemma RestoreRole(s: State, t: TaskId, x: RestoreStep)
    requires t in s.tasks && RestoreEnabled(s.tasks[t], x)
    ensures RoleAt(DoRestore(s, t, x).tasks, t) == RoleAt(s.tasks, t)
  {
    match x
    case Boot(ok) => BootRole(s, t, s.tasks[t].w, s.tasks[t].vm, ok);
    case Push => PushRole(s, t, s.tasks[t].w, s.tasks[t].vm);
    case _ =>
  }

  lemma AcquireRole(s: State, t: TaskId, x: AcquireStep)
    requires t in s.tasks && AcquireEnabled(s.tasks[t], x) && !x.Insert?
    ensures RoleAt(DoAcquire(s, t, x).tasks, t) == RoleAt(s.tasks, t)
  {
  }

  lemma WarmRole(s: State, t: TaskId, x: WarmStep)
    requires t in s.tasks && WarmEnabled(s.tasks[t], x)
    ensures RoleAt(DoWarm(s, t, x).tasks, t) == RoleAt(s.tasks, t)
  {
  }

  lemma InternalRole(poolSize: nat, s: State, step: Step)
    requires OwnershipFree(step) && Enabled(s, step)
    ensures RoleAt(Do(poolSize, s, step).tasks, step.t) == RoleAt(s.tasks, step.t)
  {
    match step
    case Control(t, x) => ControlRole(poolSize, s, t, x);
    case Restore(t, x) => RestoreRole(s, t, x);
    case Acquire(t, x) => AcquireRole(s, t, x);
    case Warm(t, x) => WarmRole(s, t, x);
    case Release(t, x) =>
  }

  /** Only task `t` changed, no VM became active or inactive, and displaced VMs are never forgotten. */
  ghost predicate Framed(s: State, s': State, t: TaskId) {
    OnlyTask(s.tasks, s'.tasks, t) && s'.sh.active == s.sh.active && s.overwritten <= s'.overwritten
  }

  lemma ControlFrame(poolSize: nat, s: State, t: TaskId, x: ControlStep)
    requires t in s.tasks && ControlEnabled(s.tasks[t], x)
    ensures Framed(s, DoControl(poolSize, s, t, x), t)
  {
  }

  lemma BootFrame(s: State, t: TaskId, w: Purpose, vm: Vm, ok: bool)
    requires t in s.tasks && s.tasks[t] == Booting(w, vm)
    ensures Framed(s, DoBoot(s, t, w, vm, ok), t)
  {
  }

  lemma PushFrame(s: State, t: TaskId, w: Purpose, vm: Vm)
    requires t in s.tasks && s.tasks[t] == Pushing(w, vm)
    ensures Framed(s, DoPush(s, t, w, vm), t)
  {
  }

  lemma RestoreFrame(s: State, t: TaskId, x: RestoreStep)
    requires t in s.tasks && RestoreEnabled(s.tasks[t], x)
    ensures Framed(s, DoRestore(s, t, x), t)
  {
    match x
    case Boot(ok) => BootFrame(s, t, s.tasks[t].w, s.tasks[t].vm, ok);
    case Push => PushFrame(s, t, s.tasks[t].w, s.tasks[t].vm);
    case Load =>
    case Fetch =>
  }

  lemma AcquireFrame(s: State, t: TaskId, x: AcquireStep)
    requires t in s.tasks && AcquireEnabled(s.tasks[t], x) && !x.Insert?
    ensures Framed(s, DoAcquire(s, t, x), t)
  {
  }

  lemma WarmFrame(s: State, t: TaskId, x: WarmStep)
    requires t in s.tasks && WarmEnabled(s.tasks[t], x)
    ensures Framed(s, DoWarm(s, t, x), t)
  {
  }

  lemma InternalFrame(poolSize: nat, s: State, step: Step)
    requires OwnershipFree(step) && Enabled(s, step)
    ensures Framed(s, Do(poolSize, s, step), step.t)
  {
    match step
    case Control(t, x) => ControlFrame(poolSize, s, t, x);
    case Restore(t, x) => RestoreFrame(s, t, x);
    case Acquire(t, x) => AcquireFrame(s, t, x);
    case Warm(t, x) => WarmFrame(s, t, x);
    case Release(t, x) =>
  }

  lemma InternalKeeps(poolSize: nat, s: System, step: Step)
    requires SystemInv(s) && DaemonEnabled(s, Internal(step))
    ensures SystemInv(DoDaemon(poolSize, s, Internal(step)))
  {
    InternalFrame(poolSize, s.pool, step);
    InternalRole(poolSize, s.pool, step);
    RoleFrame(s.pool.tasks, Do(poolSize, s.pool, step).tasks, step.t, s.pods, s.owner);
  }

  // ------------------------------------------------------- changes of ownership

  /** Requests are unaffected by what a task holds. */
  lemma HeldRpc(tasks: map<TaskId, Task>, tasks': map<TaskId, Task>, t: TaskId, pods: map<PodId, Pod>)
    requires RpcInv(tasks, pods) && OnlyTask(tasks, tasks', t)
    requires RoleAt(tasks', t).client == RoleAt(tasks, t).client && RoleAt(tasks', t).release == RoleAt(tasks, t).release
    requires RoleAt(tasks', t).removing == RoleAt(tasks, t).removing || RoleAt(tasks', t).removing == None
    ensures RpcInv(tasks', pods)
  {
    forall u ensures u != t ==> RoleAt(tasks', u) == RoleAt(tasks, u) {}
  }

  lemma GainOwner(tasks: map<TaskId, Task>, tasks': map<TaskId, Task>, t: TaskId, pods: map<PodId, Pod>,
                  owner: map<VmId, Owner>, id: VmId)
    requires OwnerInv(tasks, pods, owner) && OnlyTask(tasks, tasks', t) && id !in owner
    requires RoleAt(tasks, t).held == None && RoleAt(tasks', t) == RoleAt(tasks, t).(held := Some(id))
    ensures OwnerInv(tasks', pods, owner[id := ByTask(t)])
  {
    forall u ensures u != t ==> RoleAt(tasks', u) == RoleAt(tasks, u) {}
  }

  lemma StrandOwner(tasks: map<TaskId, Task>, tasks': map<TaskId, Task>, t: TaskId, pods: map<PodId, Pod>,
                    owner: map<VmId, Owner>, id: VmId)
    requires OwnerInv(tasks, pods, owner) && OnlyTask(tasks, tasks', t)
    requires RoleAt(tasks, t).held == Some(id)
    requires RoleAt(tasks', t).held == None && RoleAt(tasks', t).removing == RoleAt(tasks, t).removing == None
    ensures OwnerInv(tasks', pods, owner[id := Stranded]) && id in owner
    ensures StrandedIn(owner[id := Stranded]) == StrandedIn(owner) + {id} && id !in StrandedIn(owner)
  {
    forall u ensures u != t ==> RoleAt(tasks', u) == RoleAt(tasks, u) {}
  }

  lemma WithdrawOwner(tasks: map<TaskId, Task>, tasks': map<TaskId, Task>, t: TaskId, pods: map<PodId, Pod>,
                      owner: map<VmId, Owner>, id: VmId)
    requires RpcInv(tasks, pods) && OwnerInv(tasks, pods, owner) && OnlyTask(tasks, tasks', t)
    requires t in tasks && tasks[t].Removing? && tasks[t].id == id
    requires RoleAt(tasks', t) == RoleAt(tasks, t).(removing := None, held := None)
    ensures OwnerInv(tasks', pods, owner - {id}) && id in owner
    ensures StrandedIn(owner - {id}) == StrandedIn(owner)
  {
    forall u ensures u != t ==> RoleAt(tasks', u) == RoleAt(tasks, u) {}
    if tasks[t].c.PodClient? {
      var p := tasks[t].c.pod;
      assert RoleOf(tasks[t]).client == Some(PodClient(p));
      assert Keeps(tasks, pods[p]) && !Keeps(tasks', pods[p]);
      forall q | q in pods && q != p ensures Keeps(tasks', pods[q]) == Keeps(tasks, pods[q]) {}
    }
  }

  // ------------------------------------------------------------- daemon steps

  lemma GrantOwned(s: System, t: TaskId, c: Client, vm: Vm)
    requires OwnedInv(s) && t in s.pool.tasks && s.pool.tasks[t] == Inserting(c, vm) && vm.id !in s.pool.sh.active
    ensures OwnedInv(s.(pool := DoInsert(s.pool, t, c, vm), owner := s.owner[vm.id := ByTask(t)]))
  {
    GainOwner(s.pool.tasks, s.pool.tasks[t := InsertedTask(c, vm)], t, s.pods, s.owner, vm.id);
    assert StrandedIn(s.owner[vm.id := ByTask(t)]) == StrandedIn(s.owner);
  }

  lemma DisplacesSome(s: State, id: VmId)
    requires id in s.sh.active
    ensures Displaced(s, id).overwritten != {}
  {
    assert s.sh.active[id] in Displaced(s, id).overwritten;
  }

  lemma Undisplaced(s: State, t: TaskId, c: Client, vm: Vm)
    requires DoInsert(s, t, c, vm).overwritten == {}
    ensures vm.id !in s.sh.active && s.overwritten == {}
  {
    if vm.id in s.sh.active {
      DisplacesSome(s, vm.id);
    }
  }

  lemma GrantKeeps(poolSize: nat, s: System, t: TaskId)
    requires SystemInv(s) && DaemonEnabled(s, Grant(t))
    ensures SystemInv(DoDaemon(poolSize, s, Grant(t)))
  {
    var k := s.pool.tasks[t];
    HeldRpc(s.pool.tasks, s.pool.tasks[t := InsertedTask(k.c, k.vm)], t, s.pods);
    if DoInsert(s.pool, t, k.c, k.vm).overwritten == {} {
      Undisplaced(s.pool, t, k.c, k.vm);
      GrantOwned(s, t, k.c, k.vm);
    }
  }

  lemma WithdrawRole(s: State, t: TaskId)
    requires t in s.tasks && s.tasks[t].Removing?
    ensures var tasks' := DoRelease(s, t, Remove).tasks;
            OnlyTask(s.tasks, tasks', t) && RoleAt(tasks', t) == RoleAt(s.tasks, t).(removing := None, held := None)
  {
  }

  lemma WithdrawKeeps(poolSize: nat, s: System, t: TaskId)
    requires SystemInv(s) && DaemonEnabled(s, Withdraw(t))
    ensures SystemInv(DoDaemon(poolSize, s, Withdraw(t)))
  {
    var k := s.pool.tasks[t];
    var tasks' := DoRelease(s.pool, t, Remove).tasks;
    WithdrawRole(s.pool, t);
    HeldRpc(s.pool.tasks, tasks', t, s.pods);
    if s.pool.overwritten == {} {
      WithdrawOwner(s.pool.tasks, tasks', t, s.pods, s.owner, k.id);
    }
  }

  predicate Bystander(k: Task) {
    Held(k).None? && !k.Removing? && (ClientOf(k).None? || ClientOf(k).value.ShadowClient?)
  }

  /** A new task that serves no pod and holds nothing. */
  lemma SideTaskRpc(tasks: map<TaskId, Task>, t: TaskId, k: Task, pods: map<PodId, Pod>)
    requires RpcInv(tasks, pods) && t !in tasks && Bystander(k)
    ensures RpcInv(tasks[t := k], pods)
  {
  }

  lemma SideTaskOwner(tasks: map<TaskId, Task>, t: TaskId, k: Task, pods: map<PodId, Pod>, owner: map<VmId, Owner>)
    requires RpcInv(tasks, pods) && OwnerInv(tasks, pods, owner) && t !in tasks && Bystander(k)
    ensures OwnerInv(tasks[t := k], pods, owner)
  {
    forall u ensures u != t ==> RoleAt(tasks[t := k], u) == RoleAt(tasks, u) {}
    forall p | p in pods ensures Keeps(tasks[t := k], pods[p]) == Keeps(tasks, pods[p]) {}
  }

  lemma SideTask(tasks: map<TaskId, Task>, t: TaskId, k: Task, pods: map<PodId, Pod>, owner: map<VmId, Owner>)
    requires RpcInv(tasks, pods) && t !in tasks && Bystander(k)
    ensures RpcInv(tasks[t := k], pods)
    ensures OwnerInv(tasks, pods, owner) ==> OwnerInv(tasks[t := k], pods, owner)
  {
    SideTaskRpc(tasks, t, k, pods);
    if OwnerInv(tasks, pods, owner) { SideTaskOwner(tasks, t, k, pods, owner); }
  }

  lemma AdmitTasks(tasks: map<TaskId, Task>, t: TaskId, refill: TaskId, pods: map<PodId, Pod>, owner: map<VmId, Owner>)
    requires RpcInv(tasks, pods) && t in tasks && tasks[t].Holding? && refill !in tasks
    ensures var tasks' := tasks[t := Running(tasks[t].c, tasks[t].vm)][refill := Checking];
            RpcInv(tasks', pods) && (OwnerInv(tasks, pods, owner) ==> OwnerInv(tasks', pods, owner))
  {
    var tasks1 := tasks[t := Running(tasks[t].c, tasks[t].vm)];
    RoleFrame(tasks, tasks1, t, pods, owner);
    SideTask(tasks1, refill, Checking, pods, owner);
  }

  lemma AdmitKeeps(poolSize: nat, s: System, t: TaskId, refill: TaskId, shadow: Option<(TaskId, ImageKey)>)
    requires SystemInv(s) && DaemonEnabled(s, Admit(t, refill, shadow))
    ensures SystemInv(DoDaemon(poolSize, s, Admit(t, refill, shadow)))
  {
    AdmitTasks(s.pool.tasks, t, refill, s.pods, s.owner);
    if shadow.Some? {
      var k := s.pool.tasks[t];
      SideTask(s.pool.tasks[t := Running(k.c, k.vm)][refill := Checking], shadow.value.0,
               Popping(ShadowClient(shadow.value.1)), s.pods, s.owner);
    }
  }

  lemma RunFailsKeeps(poolSize: nat, s: System, t: TaskId)
    requires SystemInv(s) && DaemonEnabled(s, RunDone(t, false))
    ensures SystemInv(DoDaemon(poolSize, s, RunDone(t, false)))
  {
    var k := s.pool.tasks[t];
    var tasks' := s.pool.tasks[t := Refused(k.c)];
    HeldRpc(s.pool.tasks, tasks', t, s.pods);
    if s.pool.overwritten == {} {
      StrandOwner(s.pool.tasks, tasks', t, s.pods, s.owner, k.vm.id);
    }
  }

  lemma RunDoneKeeps(poolSize: nat, s: System, t: TaskId, ok: bool)
    requires SystemInv(s) && DaemonEnabled(s, RunDone(t, ok))
    ensures SystemInv(DoDaemon(poolSize, s, RunDone(t, ok)))
  {
    if ok {
      var k := s.pool.tasks[t];
      RoleFrame(s.pool.tasks, s.pool.tasks[t := Replying(k.c, k.vm)], t, s.pods, s.owner);
    } else {
      RunFailsKeeps(poolSize, s, t);
    }
  }

  /** Ending a task that serves no pod. */
  lemma SideEnd(tasks: map<TaskId, Task>, t: TaskId, pods: map<PodId, Pod>)
    requires RpcInv(tasks, pods) && t in tasks && ClientOf(tasks[t]).Some? && ClientOf(tasks[t]).value.ShadowClient?
    ensures RpcInv(tasks - {t}, pods)
  {
  }

  lemma ShadowDoneKeeps(poolSize: nat, s: System, t: TaskId, ok: bool)
    requires SystemInv(s) && DaemonEnabled(s, ShadowDone(t, ok))
    ensures SystemInv(DoDaemon(poolSize, s, ShadowDone(t, ok)))
  {
    var k := s.pool.tasks[t];
    if ok {
      ShadowReleases(s.pool.tasks, t, k.c, k.vm, s.pods, s.owner);
    } else {
      SideEnd(s.pool.tasks, t, s.pods);
      if s.pool.overwritten == {} {
        StrandOwner(s.pool.tasks, s.pool.tasks - {t}, t, s.pods, s.owner, k.vm.id);
      }
    }
  }

  /** A shadow that starts its release goes on owning its VM until the remove. */
  lemma ShadowReleases(tasks: map<TaskId, Task>, t: TaskId, c: Client, vm: Vm, pods: map<PodId, Pod>, owner: map<VmId, Owner>)
    requires RpcInv(tasks, pods) && t in tasks && tasks[t] == Holding(c, vm) && c.ShadowClient?
    ensures RpcInv(tasks[t := Removing(c, vm.id)], pods)
    ensures OwnerInv(tasks, pods, owner) ==> OwnerInv(tasks[t := Removing(c, vm.id)], pods, owner)
  {
    var tasks' := tasks[t := Removing(c, vm.id)];
    forall u ensures u != t ==> RoleAt(tasks', u) == RoleAt(tasks, u) {}
  }

  lemma ShadowGoneKeeps(poolSize: nat, s: System, t: TaskId)
    requires SystemInv(s) && DaemonEnabled(s, ShadowGone(t))
    ensures SystemInv(DoDaemon(poolSize, s, ShadowGone(t)))
  {
    SideEnd(s.pool.tasks, t, s.pods);
    forall u ensures u != t ==> RoleAt(s.pool.tasks - {t}, u) == RoleAt(s.pool.tasks, u) {}
  }

  // --------------------------------------------------------------- shim steps

  /** A pod changes on its own: same request, same VM. */
  lemma PodAlone(tasks: map<TaskId, Task>, pods: map<PodId, Pod>, p: PodId, pod: Pod, owner: map<VmId, Owner>)
    requires RpcInv(tasks, pods) && PodsInv(pods) && PodInv(pod)
    requires pod.waiting.Idle? && (p in pods ==> pods[p].waiting.Idle?)
    requires p in pods && Keeps(tasks, pods[p]) ==> Keeps(tasks, pod) && pod.entry.value.vm == pods[p].entry.value.vm
    requires Keeps(tasks, pod) ==> p in pods && Keeps(tasks, pods[p])
    ensures RpcInv(tasks, pods[p := pod]) && PodsInv(pods[p := pod])
    ensures OwnerInv(tasks, pods, owner) ==> OwnerInv(tasks, pods[p := pod], owner)
  {
  }

  /** An idle pod sends a request served by the new task `t`. */
  lemma PodSendsRpc(tasks: map<TaskId, Task>, t: TaskId, k: Task, pods: map<PodId, Pod>, p: PodId, pod: Pod)
    requires RpcInv(tasks, pods) && t !in tasks && p in pods && pods[p].waiting.Idle?
    requires !pod.waiting.Idle? && pod.waiting.t == t && ClientOf(k) == Some(PodClient(p))
    requires pod.waiting.ForRelease? == RoleOf(k).release && pod.entry.Some?
    requires RoleOf(k).removing.Some? ==> RoleOf(k).removing == pod.entry.value.vm
    ensures RpcInv(tasks[t := k], pods[p := pod])
  {
    forall u ensures u != t ==> RoleAt(tasks[t := k], u) == RoleAt(tasks, u) {}
  }

  lemma PodSendsOwner(tasks: map<TaskId, Task>, t: TaskId, k: Task, pods: map<PodId, Pod>, p: PodId, pod: Pod, owner: map<VmId, Owner>)
    requires RpcInv(tasks, pods) && OwnerInv(tasks, pods, owner) && t !in tasks && p in pods && pods[p].waiting.Idle?
    requires pod.waiting.Idle? || pod.waiting.t == t
    requires Held(k).None? && pod.entry.Some? && pods[p].entry.Some? && pod.entry.value.vm == pods[p].entry.value.vm
    requires pod.waiting.ForRelease? ==> RoleOf(k).removing == pod.entry.value.vm
    ensures OwnerInv(tasks[t := k], pods[p := pod], owner)
  {
    forall u ensures u != t ==> RoleAt(tasks[t := k], u) == RoleAt(tasks, u) {}
    forall q | q in pods ensures Keeps(tasks[t := k], pods[p := pod][q]) == Keeps(tasks, pods[q]) {}
  }

  lemma PodSends(tasks: map<TaskId, Task>, t: TaskId, k: Task, pods: map<PodId, Pod>, p: PodId, pod: Pod, owner: map<VmId, Owner>)
    requires RpcInv(tasks, pods) && PodsInv(pods) && PodInv(pod) && t !in tasks && p in pods && pods[p].waiting.Idle?
    requires !pod.waiting.Idle? && pod.waiting.t == t && ClientOf(k) == Some(PodClient(p)) && Held(k).None?
    requires pod.waiting.ForRelease? == RoleOf(k).release
    requires pod.entry.Some? && pods[p].entry.Some? && pod.entry.value.vm == pods[p].entry.value.vm
    requires pod.waiting.ForRelease? ==> RoleOf(k).removing == pod.entry.value.vm
    requires pod.waiting.ForVm? ==> RoleOf(k).removing == None
    ensures RpcInv(tasks[t := k], pods[p := pod]) && PodsInv(pods[p := pod])
    ensures OwnerInv(tasks, pods, owner) ==> OwnerInv(tasks[t := k], pods[p := pod], owner)
  {
    PodSendsRpc(tasks, t, k, pods, p, pod);
    if OwnerInv(tasks, pods, owner) {
      PodSendsOwner(tasks, t, k, pods, p, pod, owner);
    }
  }

  /** A pod takes the reply of its request; the serving task ends and held nothing. */
  lemma PodReceivesRpc(tasks: map<TaskId, Task>, pods: map<PodId, Pod>, p: PodId, pod: Pod)
    requires RpcInv(tasks, pods) && p in pods && !pods[p].waiting.Idle? && pod.waiting.Idle? && pods[p].waiting.t in tasks
    ensures RpcInv(tasks - {pods[p].waiting.t}, pods[p := pod])
  {
    var t := pods[p].waiting.t;
    forall u ensures u != t ==> RoleAt(tasks - {t}, u) == RoleAt(tasks, u) {}
  }

  lemma PodReceivesOwner(tasks: map<TaskId, Task>, pods: map<PodId, Pod>, p: PodId, pod: Pod, owner: map<VmId, Owner>)
    requires RpcInv(tasks, pods) && OwnerInv(tasks, pods, owner) && p in pods && !pods[p].waiting.Idle?
    requires pods[p].waiting.t in tasks && Held(tasks[pods[p].waiting.t]).None?
    requires !Keeps(tasks, pods[p]) && !Keeps(tasks - {pods[p].waiting.t}, pod)
    ensures OwnerInv(tasks - {pods[p].waiting.t}, pods[p := pod], owner)
  {
    var t := pods[p].waiting.t;
    forall u ensures u != t ==> RoleAt(tasks - {t}, u) == RoleAt(tasks, u) {}
    forall q | q in pods && q != p ensures Keeps(tasks - {t}, pods[q]) == Keeps(tasks, pods[q]) {}
  }

  lemma PodReceives(tasks: map<TaskId, Task>, pods: map<PodId, Pod>, p: PodId, pod: Pod, owner: map<VmId, Owner>)
    requires RpcInv(tasks, pods) && PodsInv(pods) && PodInv(pod) && p in pods && !pods[p].waiting.Idle?
    requires pod.waiting.Idle? && pods[p].waiting.t in tasks
    requires Held(tasks[pods[p].waiting.t]).None? && !tasks[pods[p].waiting.t].Removing?
    requires !Keeps(tasks, pods[p]) && !Keeps(tasks - {pods[p].waiting.t}, pod)
    ensures RpcInv(tasks - {pods[p].waiting.t}, pods[p := pod]) && PodsInv(pods[p := pod])
    ensures OwnerInv(tasks, pods, owner) ==> OwnerInv(tasks - {pods[p].waiting.t}, pods[p := pod], owner)
  {
    PodReceivesRpc(tasks, pods, p, pod);
    if OwnerInv(tasks, pods, owner) {
      PodReceivesOwner(tasks, pods, p, pod, owner);
    }
  }

  /** The reply hands the VM over to the shim. */
  lemma PodAcquiresRpc(tasks: map<TaskId, Task>, pods: map<PodId, Pod>, p: PodId, pod: Pod)
    requires RpcInv(tasks, pods) && p in pods && pods[p].waiting.ForVm? && pod.waiting.Idle? && pods[p].waiting.t in tasks
    ensures RpcInv(tasks - {pods[p].waiting.t}, pods[p := pod])
  {
    PodReceivesRpc(tasks, pods, p, pod);
  }

  lemma PodAcquiresOwner(tasks: map<TaskId, Task>, pods: map<PodId, Pod>, p: PodId, pod: Pod, owner: map<VmId, Owner>, id: VmId)
    requires RpcInv(tasks, pods) && OwnerInv(tasks, pods, owner) && p in pods && pods[p].waiting.ForVm?
    requires pod.waiting.Idle? && pods[p].waiting.t in tasks && Held(tasks[pods[p].waiting.t]) == Some(id)
    requires pods[p].entry.Some? && pods[p].entry.value.vm.None?
    requires pod.entry.Some? && pod.entry.value.vm == Some(id)
    ensures id in owner && OwnerInv(tasks - {pods[p].waiting.t}, pods[p := pod], owner[id := ByShim(p)])
    ensures StrandedIn(owner[id := ByShim(p)]) == StrandedIn(owner)
  {
    var t := pods[p].waiting.t;
    forall u ensures u != t ==> RoleAt(tasks - {t}, u) == RoleAt(tasks, u) {}
    forall q | q in pods && q != p ensures Keeps(tasks - {t}, pods[q]) == Keeps(tasks, pods[q]) {}
  }

  lemma PodAcquires(tasks: map<TaskId, Task>, pods: map<PodId, Pod>, p: PodId, pod: Pod, owner: map<VmId, Owner>, id: VmId)
    requires RpcInv(tasks, pods) && PodsInv(pods) && PodInv(pod) && p in pods && pods[p].waiting.ForVm?
    requires pod.waiting.Idle? && pods[p].waiting.t in tasks && Held(tasks[pods[p].waiting.t]) == Some(id)
    requires pods[p].entry.Some? && pods[p].entry.value.vm.None?
    requires pod.entry.Some? && pod.entry.value.vm == Some(id)
    ensures RpcInv(tasks - {pods[p].waiting.t}, pods[p := pod]) && PodsInv(pods[p := pod])
    ensures OwnerInv(tasks, pods, owner) ==>
              id in owner && OwnerInv(tasks - {pods[p].waiting.t}, pods[p := pod], owner[id := ByShim(p)])
              && StrandedIn(owner[id := ByShim(p)]) == StrandedIn(owner)
  {
    PodAcquiresRpc(tasks, pods, p, pod);
    if OwnerInv(tasks, pods, owner) {
      PodAcquiresOwner(tasks, pods, p, pod, owner, id);
    }
  }

  lemma StartsKeep(s: System, m: ShimStep)
    requires SystemInv(s) && ShimEnabled(s, m) && (m.StartSandbox? || m.AddContainer?)
    ensures SystemInv(DoShim(s, m))
  {
    PodAlone(s.pool.tasks, s.pods, m.p, DoShim(s, m).pods[m.p], s.owner);
  }

  lemma FirstContainerKeeps(s: System, m: ShimStep)
    requires SystemInv(s) && ShimEnabled(s, m) && m.FirstContainer?
    ensures SystemInv(DoShim(s, m))
  {
    var s' := DoShim(s, m);
    PodSends(s.pool.tasks, m.t, s'.pool.tasks[m.t], s.pods, m.p, s'.pods[m.p], s.owner);
  }

  lemma AcquiredKeeps(s: System, m: ShimStep)
    requires SystemInv(s) && ShimEnabled(s, m) && m.Acquired?
    ensures SystemInv(DoShim(s, m))
  {
    var pod := s.pods[m.p];
    PodAcquires(s.pool.tasks, s.pods, m.p, DoShim(s, m).pods[m.p], s.owner, s.pool.tasks[pod.waiting.t].vm.id);
  }

  lemma RepliesKeep(s: System, m: ShimStep)
    requires SystemInv(s) && ShimEnabled(s, m) && (m.AcquireFailed? || m.ReleaseDone?)
    ensures SystemInv(DoShim(s, m))
  {
    PodReceives(s.pool.tasks, s.pods, m.p, DoShim(s, m).pods[m.p], s.owner);
  }

  lemma DeletedPod(pod: Pod, inst: InstanceId, sv: SharedVm)
    requires PodInv(pod) && pod.entry == Some(sv) && pod.waiting.Idle?
    ensures var pod' := pod.(live := pod.live - {inst}, strays := pod.strays + (if inst in pod.live then 0 else 1),
                             entry := Some(DeletedEntry(sv)));
            |pod'.live| - pod'.strays == sv.count - 1
  {
    if inst in pod.live {
      assert |pod.live - {inst}| == |pod.live| - 1;
    } else {
      assert pod.live - {inst} == pod.live;
    }
  }

  lemma LastDeleteKeeps(s: System, m: ShimStep)
    requires SystemInv(s) && ShimEnabled(s, m) && m.DeleteInstance?
    requires s.pods[m.p].entry.Some? && DeleteReleases(s.pods[m.p].entry.value)
    ensures SystemInv(DoShim(s, m))
  {
    var pod, s' := s.pods[m.p], DoShim(s, m);
    assert PodInv(pod);
    DeletedPod(pod, m.inst, pod.entry.value);
    PodSends(s.pool.tasks, m.t, s'.pool.tasks[m.t], s.pods, m.p, s'.pods[m.p], s.owner);
  }

  lemma DeleteKeeps(s: System, m: ShimStep)
    requires SystemInv(s) && ShimEnabled(s, m) && m.DeleteInstance?
    ensures SystemInv(DoShim(s, m))
  {
    var pod := s.pods[m.p];
    if pod.entry.Some? && DeleteReleases(pod.entry.value) {
      LastDeleteKeeps(s, m);
    } else {
      assert PodInv(pod);
      if pod.entry.Some? {
        DeletedPod(pod, m.inst, pod.entry.value);
      }
      PodAlone(s.pool.tasks, s.pods, m.p, DoShim(s, m).pods[m.p], s.owner);
    }
  }

  lemma KillKeeps(s: System, m: ShimStep)
    requires SystemInv(s) && ShimEnabled(s, m) && m.KillInstance?
    ensures SystemInv(DoShim(s, m))
  {
    var s' := DoShim(s, m);
    if s.pods[m.p].entry.None? || !KillEnds(m.p, m.inst, m.signal) {
      assert s' == s;
    } else if s.pods[m.p].entry.value.vm.Some? {
      PodSends(s.pool.tasks, m.t, s'.pool.tasks[m.t], s.pods, m.p, s'.pods[m.p], s.owner);
    } else {
      PodAlone(s.pool.tasks, s.pods, m.p, s'.pods[m.p], s.owner);
    }
  }

  // ------------------------------------------------------------------ runs

  /** What a shim step does to the pool is a step of the pool, or nothing. */
  lemma SpawnKeeps(poolSize: nat, s: State, t: TaskId, task: Task)
    requires Inv(poolSize, s) && s.serving && t !in s.tasks && MaySpawn(task)
    ensures Inv(poolSize, At(s, t, task))
  {
    StepKeeps(poolSize, s, Handler(t, Spawn(task)));
  }

  lemma DropKeeps(poolSize: nat, s: State, t: TaskId)
    requires Inv(poolSize, s) && t in s.tasks && MayDrop(s.tasks[t])
    ensures Inv(poolSize, Ended(s, t))
  {
    StepKeeps(poolSize, s, Handler(t, Drop));
  }

  /** What a shim step does to the pool: nothing, one task more, or one task less. */
  lemma ShimPoolIs(s: System, m: ShimStep)
    requires ShimEnabled(s, m)
    ensures var pool := DoShim(s, m).pool;
            if m.Acquired? || m.AcquireFailed? || m.ReleaseDone? then
              pool == Ended(s.pool, s.pods[m.p].waiting.t) && MayDrop(s.pool.tasks[s.pods[m.p].waiting.t])
            else
              || pool == s.pool
              || ((m.FirstContainer? || m.DeleteInstance? || m.KillInstance?)
                  && m.t in pool.tasks && pool == At(s.pool, m.t, pool.tasks[m.t]) && MaySpawn(pool.tasks[m.t]))
  {
  }

  lemma ShimPool(poolSize: nat, s: System, m: ShimStep)
    requires Inv(poolSize, s.pool) && ShimEnabled(s, m)
    ensures Inv(poolSize, DoShim(s, m).pool)
  {
    ShimPoolIs(s, m);
    var pool := DoShim(s, m).pool;
    if m.Acquired? || m.AcquireFailed? || m.ReleaseDone? {
      DropKeeps(poolSize, s.pool, s.pods[m.p].waiting.t);
    } else if pool != s.pool {
      SpawnKeeps(poolSize, s.pool, m.t, pool.tasks[m.t]);
    }
  }

  lemma AdmitPool(poolSize: nat, s: System, t: TaskId, refill: TaskId, shadow: Option<(TaskId, ImageKey)>)
    requires Inv(poolSize, s.pool) && DaemonEnabled(s, Admit(t, refill, shadow))
    ensures Inv(poolSize, Admitted(s.pool, t, refill, shadow))
  {
    var k := s.pool.tasks[t];
    var s1 := At(s.pool, t, Running(k.c, k.vm));
    StepKeeps(poolSize, s.pool, Handler(t, Move(Running(k.c, k.vm))));
    SpawnKeeps(poolSize, s1, refill, Checking);
    if shadow.Some? {
      SpawnKeeps(poolSize, At(s1, refill, Checking), shadow.value.0, Popping(ShadowClient(shadow.value.1)));
    }
  }

  lemma DaemonPool(poolSize: nat, s: System, d: DaemonStep)
    requires Inv(poolSize, s.pool) && DaemonEnabled(s, d)
    ensures Inv(poolSize, DoDaemon(poolSize, s, d).pool)
  {
    match d
    case Internal(step) => StepKeeps(poolSize, s.pool, step);
    case Grant(t) => StepKeeps(poolSize, s.pool, Acquire(t, Insert));
    case Withdraw(t) => StepKeeps(poolSize, s.pool, Release(t, Remove));
    case Admit(t, refill, shadow) => AdmitPool(poolSize, s, t, refill, shadow);
    case RunDone(t, ok) =>
      var k := s.pool.tasks[t];
      StepKeeps(poolSize, s.pool, Handler(t, Move(if ok then Replying(k.c, k.vm) else Refused(k.c))));
    case ShadowDone(t, ok) =>
      var k := s.pool.tasks[t];
      StepKeeps(poolSize, s.pool, Handler(t, if ok then Move(Removing(k.c, k.vm.id)) else Drop));
    case ShadowGone(t) => StepKeeps(poolSize, s.pool, Handler(t, Drop));
  }

  lemma SystemStepKeeps(poolSize: nat, s: System, step: SystemStep)
    requires Inv(poolSize, s.pool) && SystemInv(s) && SystemEnabled(s, step)
    ensures Inv(poolSize, DoSystem(poolSize, s, step).pool) && SystemInv(DoSystem(poolSize, s, step))
  {
    match step
    case Daemon(d) =>
      DaemonPool(poolSize, s, d);
      match d {
        case Internal(x) => InternalKeeps(poolSize, s, x);
        case Grant(t) => GrantKeeps(poolSize, s, t);
        case Withdraw(t) => WithdrawKeeps(poolSize, s, t);
        case Admit(t, refill, shadow) => AdmitKeeps(poolSize, s, t, refill, shadow);
        case RunDone(t, ok) => RunDoneKeeps(poolSize, s, t, ok);
        case ShadowDone(t, ok) => ShadowDoneKeeps(poolSize, s, t, ok);
        case ShadowGone(t) => ShadowGoneKeeps(poolSize, s, t);
      }
    case Shim(m) =>
      ShimPool(poolSize, s, m);
      match m {
        case StartSandbox(_) => StartsKeep(s, m);
        case AddContainer(_, _, _) => StartsKeep(s, m);
        case FirstContainer(_, _, _, _) => FirstContainerKeeps(s, m);
        case Acquired(_) => AcquiredKeeps(s, m);
        case AcquireFailed(_) => RepliesKeep(s, m);
        case ReleaseDone(_) => RepliesKeep(s, m);
        case DeleteInstance(_, _, _) => DeleteKeeps(s, m);
        case KillInstance(_, _, _, _) => KillKeeps(s, m);
      }
  }

  lemma {:induction false} SystemRunKeeps(poolSize: nat, s: System, run: seq<SystemStep>, r: System)
    requires Inv(poolSize, s.pool) && SystemInv(s) && SystemReaches(poolSize, s, run, r)
    ensures Inv(poolSize, r.pool) && SystemInv(r)
    decreases |run|
  {
    if run != [] {
      SystemStepKeeps(poolSize, s, run[0]);
      SystemRunKeeps(poolSize, DoSystem(poolSize, s, run[0]), run[1..], r);
    }
  }
}
