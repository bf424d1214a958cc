/** The guest agent's bookkeeping (crates/agent/src/container.rs): containers, exit receivers and
    log buffers by container id, and the block devices already handed out.

    Process and file-system calls are parameters: the pid that a spawn gives, the devices that a
    scan of /sys/block finds. Failed spawns and failed mounts leave the tables as they are. */
module AgentModel {
  import opened Basics

  type Id = string
  type Device = string

  datatype Status = Created | Running | Stopped

  datatype Container = Container(pid: Option<nat>, exitCode: Option<int>, state: Status)

  /** A receiver is told of the exit of one process, a log buffer collects the output of one. */
  datatype Receiver = Receiver(process: nat)
  datatype LogBuffer = LogBuffer(process: nat)

  datatype Agent = Agent(containers: map<Id, Container>, known: set<Device>,
                         receivers: map<Id, Receiver>, logs: map<Id, LogBuffer>)

  function Boot(disks: set<Device>): Agent {
    Agent(map[], disks, map[], map[])
  }

  /** Operations, each under the manager's lock. A `create` is a `Discover` for each of its block
      volumes and then, if nothing failed, a `Create`; `run` is a `create` and a `Start`. `pick` is
      the device that the iteration order of the hash set puts first. */
  datatype Op =
    | Discover(scan: set<Device>, pick: Device)
    | Create(id: Id, agentPid: nat)
    | Start(id: Id, pid: nat)
    | Delete(id: Id)
    | Adopt(oldId: Id, newId: Id)

  datatype Answer = Pid(pid: nat) | NotFound | NoPid | Dev(device: Option<Device>) | Deleted(pid: nat, code: int)

  predicate Enabled(a: Agent, op: Op) {
    op.Discover? && op.scan - a.known != {} ==> op.pick in op.scan - a.known
  }

  function OrElse<T>(o: Option<T>, default: T): T {
    if o.Some? then o.value else default
  }

  /** Moves the entry of `x`, if there is one, to `y`. */
  function Moved<V>(m: map<Id, V>, x: Id, y: Id): map<Id, V> {
    if x in m then (m - {x})[y := m[x]] else m
  }

  function DoDiscover(a: Agent, scan: set<Device>, pick: Device): (Agent, Answer) {
    if scan - a.known == {} then (a, Dev(None)) else (a.(known := a.known + {pick}), Dev(Some(pick)))
  }

  function DoCreate(a: Agent, id: Id, agentPid: nat): (Agent, Answer) {
    (a.(containers := a.containers[id := Container(Some(agentPid), None, Created)]), Pid(agentPid))
  }

  function DoStart(a: Agent, id: Id, pid: nat): (Agent, Answer) {
    if id !in a.containers then (a, NotFound)
    else (a.(containers := a.containers[id := a.containers[id].(state := Running, pid := Some(pid))],
             logs := a.logs[id := LogBuffer(pid)],
             receivers := a.receivers[id := Receiver(pid)]),
          Pid(pid))
  }

  /** Only the container goes; its receiver and log buffer stay. */
  function DoDelete(a: Agent, id: Id): (Agent, Answer) {
    if id !in a.containers then (a, Deleted(0, 0))
    else
      var c := a.containers[id];
      (a.(containers := a.containers - {id}), Deleted(OrElse(c.pid, 0), OrElse(c.exitCode, 0)))
  }

  function DoMarkStopped(a: Agent, id: Id, code: int): Agent {
    if id !in a.containers then a
    else a.(containers := a.containers[id := a.containers[id].(state := Stopped, exitCode := Some(code))])
  }

  /** The container is taken out before its pid is looked at. */
  function DoAdopt(a: Agent, oldId: Id, newId: Id): (Agent, Answer) {
    if oldId !in a.containers then (a, NotFound)
    else
      var c := a.containers[oldId];
      var rest := a.containers - {oldId};
      if c.pid.None? then (a.(containers := rest), NoPid)
      else (a.(containers := rest[newId := c],
               receivers := Moved(a.receivers, oldId, newId),
               logs := Moved(a.logs, oldId, newId)),
            Pid(c.pid.value))
  }

  function Do(a: Agent, op: Op): (Agent, Answer) {
    match op
    case Discover(scan, pick) => DoDiscover(a, scan, pick)
    case Create(id, agentPid) => DoCreate(a, id, agentPid)
    case Start(id, pid) => DoStart(a, id, pid)
    case Delete(id) => DoDelete(a, id)
    case Adopt(oldId, newId) => DoAdopt(a, oldId, newId)
  }

  // ----------------------------------------------------------------------------- runs

  type WaiterId = nat

  /** A `wait_container` between its two lock sections: the id it was asked for, and the process whose
      exit its receiver reports. */
  datatype Waiter = Waiter(id: Id, process: nat)

  /** What happens to the agent. A wait takes the receiver in one lock section; once the process has
      exited or the time is up, it marks the container in another. */
  datatype Event =
    | Call(op: Op)
    | Wait(w: WaiterId, id: Id)
    | Mark(w: WaiterId, code: int)

  /** A run of the agent from its boot: the state, the waits under way, and (as bookkeeping) the
      devices handed out in order, the pids of spawned processes and the agent's own. */
  datatype Run = Run(agent: Agent, waiters: map<WaiterId, Waiter>, found: seq<Device>, spawned: set<nat>, own: set<nat>)

  function AfterCall(r: Run, op: Op): Run {
    var (a, answer) := Do(r.agent, op);
    Run(a, r.waiters,
        if answer.Dev? && answer.device.Some? then r.found + [answer.device.value] else r.found,
        if op.Start? then r.spawned + {op.pid} else r.spawned,
        if op.Create? then r.own + {op.agentPid} else r.own)
  }

  function Next(r: Run, e: Event): Run {
    match e
    case Call(op) => AfterCall(r, op)
    case Wait(w, id) =>
      if id in r.agent.receivers then r.(waiters := r.waiters[w := Waiter(id, r.agent.receivers[id].process)]) else r
    case Mark(w, code) =>
      if w in r.waiters then r.(agent := DoMarkStopped(r.agent, r.waiters[w].id, code), waiters := r.waiters - {w}) else r
  }

  function After(disks: set<Device>, events: seq<Event>): Run {
    if events == [] then Run(Boot(disks), map[], [], {}, {})
    else Next(After(disks, events[..|events| - 1]), events[|events| - 1])
  }

  predicate Possible(r: Run, e: Event) {
    match e
    case Call(op) => Enabled(r.agent, op)
    case Wait(w, _) => w !in r.waiters
    case Mark(w, _) => w in r.waiters
  }

  ghost predicate Legal(disks: set<Device>, events: seq<Event>) {
    forall i :: 0 <= i < |events| ==> Possible(After(disks, events[..i]), events[i])
  }

  /** A spawn gives a pid that no process had before. */
  predicate FreshPid(r: Run, e: Event) {
    && (e.Call? && e.op.Start? ==> e.op.pid !in r.spawned && e.op.pid !in r.own)
    && (e.Call? && e.op.Create? ==> e.op.agentPid !in r.spawned)
  }

  ghost predicate FreshPids(disks: set<Device>, events: seq<Event>) {
    forall i :: 0 <= i < |events| ==> FreshPid(After(disks, events[..i]), events[i])
  }

  /** The container has a pid, and while it runs, its receiver and log buffer are those of that process. */
  predicate Linked(a: Agent, id: Id)
    requires id in a.containers
  {
    var c := a.containers[id];
    && c.pid.Some?
    && (c.state == Running ==> id in a.receivers && a.receivers[id].process == c.pid.value)
    && (c.state == Running ==> id in a.logs && a.logs[id].process == c.pid.value)
  }

  ghost predicate AllLinked(a: Agent) {
    forall id :: id in a.containers ==> Linked(a, id)
  }

  ghost predicate Distinct(s: seq<Device>) {
    forall i, j :: 0 <= i < j < |s| ==> s[i] != s[j]
  }

  ghost predicate Inv(disks: set<Device>, r: Run) {
    && AllLinked(r.agent)
    && (forall d :: d in r.agent.known <==> d in disks || d in r.found)
    && (forall d :: d in r.found ==> d !in disks)
    && Distinct(r.found)
  }

  lemma AdoptKeeps(a: Agent, oldId: Id, newId: Id)
    requires AllLinked(a)
    ensures AllLinked(DoAdopt(a, oldId, newId).0)
  {
    var b := DoAdopt(a, oldId, newId).0;
    if oldId in a.containers {
      assert Linked(a, oldId);
      forall id | id in b.containers ensures Linked(b, id) {
        if id != newId {
          assert Linked(a, id);
        }
      }
    }
  }

  lemma CallKeeps(disks: set<Device>, r: Run, op: Op)
    requires Inv(disks, r) && Enabled(r.agent, op)
    ensures Inv(disks, AfterCall(r, op))
  {
    if op.Adopt? {
      AdoptKeeps(r.agent, op.oldId, op.newId);
    } else {
      var b := Do(r.agent, op).0;
      forall id | id in b.containers ensures Linked(b, id) {
        assert id in r.agent.containers ==> Linked(r.agent, id);
      }
    }
  }

  lemma StepKeeps(disks: set<Device>, r: Run, e: Event)
    requires Inv(disks, r) && Possible(r, e)
    ensures Inv(disks, Next(r, e))
  {
    match e
    case Call(op) => CallKeeps(disks, r, op);
    case Wait(_, _) =>
    case Mark(w, code) =>
      var b := DoMarkStopped(r.agent, r.waiters[w].id, code);
      forall id | id in b.containers ensures Linked(b, id) {
        assert Linked(r.agent, id);
      }
  }

  lemma LegalFront(disks: set<Device>, events: seq<Event>)
    requires Legal(disks, events) && events != []
    ensures var n := |events| - 1;
            Legal(disks, events[..n]) && Possible(After(disks, events[..n]), events[n])
    ensures var n := |events| - 1;
            FreshPids(disks, events) ==> FreshPids(disks, events[..n]) && FreshPid(After(disks, events[..n]), events[n])
  {
    var n := |events| - 1;
    forall i | 0 <= i < n ensures events[..n][..i] == events[..i] && events[..n][i] == events[i] {
    }
  }

  lemma {:induction false} RunKeeps(disks: set<Device>, events: seq<Event>)
    requires Legal(disks, events)
    ensures Inv(disks, After(disks, events))
  {
    if events != [] {
      var n := |events| - 1;
      LegalFront(disks, events);
      RunKeeps(disks, events[..n]);
      StepKeeps(disks, After(disks, events[..n]), events[n]);
    }
  }

  // ------------------------------------------------------------------------- theorems

  /** In every reachable state every container has a pid, and a running one has the exit receiver
      and the log buffer of its own process. */
  lemma RunningIsObserved(disks: set<Device>, events: seq<Event>, id: Id)
    requires Legal(disks, events) && id in After(disks, events).agent.containers
    ensures Linked(After(disks, events).agent, id)
  {
    RunKeeps(disks, events);
  }

  /** The entry of `id` is the same in both tables. */
  predicate SameAt<V(==)>(m: map<Id, V>, n: map<Id, V>, id: Id) {
    (id in m <==> id in n) && (id in m ==> n[id] == m[id])
  }

  predicate Untouched(a: Agent, b: Agent, id: Id) {
    SameAt(a.containers, b.containers, id) && SameAt(a.receivers, b.receivers, id) && SameAt(a.logs, b.logs, id)
  }

  lemma AdoptElsewhere(a: Agent, oldId: Id, newId: Id)
    requires oldId in a.containers ==> a.containers[oldId].pid.Some?
    ensures forall id :: id != oldId && id != newId ==> Untouched(a, DoAdopt(a, oldId, newId).0, id)
  {
  }

  /** In every reachable state, `adopt` succeeds exactly for a known container, never drops it, and
      brings its receiver and log along; no other id but the two is touched in any table. */
  lemma AdoptMoves(disks: set<Device>, events: seq<Event>, oldId: Id, newId: Id)
    requires Legal(disks, events)
    ensures var a := After(disks, events).agent;
            var (b, answer) := DoAdopt(a, oldId, newId);
            && (answer.Pid? <==> oldId in a.containers)
            && answer != NoPid
            && (oldId !in a.containers ==> b == a)
            && (oldId in a.containers ==>
                  && newId in b.containers && b.containers[newId] == a.containers[oldId]
                  && (oldId != newId ==> oldId !in b.containers && oldId !in b.receivers && oldId !in b.logs)
                  && Linked(b, newId)
                  && (oldId in a.receivers ==> newId in b.receivers && b.receivers[newId] == a.receivers[oldId])
                  && (oldId in a.logs ==> newId in b.logs && b.logs[newId] == a.logs[oldId]))
            && (forall id :: id != oldId && id != newId ==> Untouched(a, b, id))
  {
    RunKeeps(disks, events);
    var a := After(disks, events).agent;
    assert oldId in a.containers ==> Linked(a, oldId);
    AdoptElsewhere(a, oldId, newId);
    AdoptKeeps(a, oldId, newId);
    if oldId in a.containers {
      assert Linked(DoAdopt(a, oldId, newId).0, newId);
    }
  }

  lemma MovedBack<V>(m: map<Id, V>, x: Id, y: Id)
    requires y !in m
    ensures Moved(Moved(m, x, y), y, x) == m
  {
  }

  predicate Fresh(a: Agent, id: Id) {
    id !in a.containers && id !in a.receivers && id !in a.logs
  }

  /** In every reachable state, adopting to an id fresh in all three tables and back again changes
      nothing. */
  lemma AdoptAndBack(disks: set<Device>, events: seq<Event>, oldId: Id, newId: Id)
    requires Legal(disks, events)
    requires oldId in After(disks, events).agent.containers && Fresh(After(disks, events).agent, newId)
    ensures var a := After(disks, events).agent;
            DoAdopt(DoAdopt(a, oldId, newId).0, newId, oldId).0 == a
  {
    RunKeeps(disks, events);
    var a := After(disks, events).agent;
    assert Linked(a, oldId);
    var b := DoAdopt(a, oldId, newId).0;
    MovedBack(a.receivers, oldId, newId);
    MovedBack(a.logs, oldId, newId);
    assert (b.containers - {newId})[oldId := a.containers[oldId]] == a.containers;
  }

  /** Over every run the devices handed out are pairwise distinct and none was there at boot; a scan
      finds nothing if and only if it shows only such devices. */
  lemma DevicesDistinct(disks: set<Device>, events: seq<Event>, scan: set<Device>, pick: Device)
    requires Legal(disks, events) && Enabled(After(disks, events).agent, Discover(scan, pick))
    ensures var r := After(disks, events);
            && Distinct(r.found)
            && (forall d :: d in r.found ==> d !in disks)
            && (DoDiscover(r.agent, scan, pick).1 == Dev(None) <==> forall d :: d in scan ==> d in disks || d in r.found)
  {
    RunKeeps(disks, events);
    var r := After(disks, events);
    if DoDiscover(r.agent, scan, pick).1 == Dev(None) {
      forall d | d in scan ensures d in disks || d in r.found {
        assert d !in scan - r.agent.known;
      }
    }
  }

  // ---------------------------------------------------------- waits and their marks

  predicate Holds(a: Agent, id: Id, process: nat) {
    id in a.containers && a.containers[id].pid == Some(process)
  }

  /** Every spawned process has at most one container, and waits are for spawned processes. */
  ghost predicate PidInv(r: Run) {
    && r.spawned !! r.own
    && (forall id :: id in r.agent.containers ==>
          r.agent.containers[id].pid.Some? && r.agent.containers[id].pid.value in r.spawned + r.own)
    && (forall k, l, p :: Holds(r.agent, k, p) && Holds(r.agent, l, p) && p in r.spawned ==> k == l)
    && (forall id :: id in r.agent.receivers ==> r.agent.receivers[id].process in r.spawned)
    && (forall w :: w in r.waiters ==> r.waiters[w].process in r.spawned)
  }

  lemma AdoptPids(r: Run, oldId: Id, newId: Id)
    requires PidInv(r)
    ensures PidInv(AfterCall(r, Adopt(oldId, newId)))
  {
    var a, b := r.agent, DoAdopt(r.agent, oldId, newId).0;
    if oldId in a.containers {
      forall k, p | Holds(b, k, p) ensures Holds(a, if k == newId then oldId else k, p) && (k != oldId || oldId == newId) {
      }
    }
  }

  lemma StartPids(r: Run, id: Id, pid: nat)
    requires PidInv(r) && FreshPid(r, Call(Start(id, pid)))
    ensures PidInv(AfterCall(r, Start(id, pid)))
  {
    var a, b := r.agent, DoStart(r.agent, id, pid).0;
    forall k, p | Holds(b, k, p) && k != id ensures Holds(a, k, p) && p != pid {
      assert Holds(a, k, p);
    }
  }

  lemma OtherPids(r: Run, op: Op)
    requires PidInv(r) && FreshPid(r, Call(op)) && !op.Start? && !op.Adopt?
    ensures PidInv(AfterCall(r, op))
  {
    var a, b := r.agent, Do(r.agent, op).0;
    assert forall k, p :: Holds(b, k, p) ==> Holds(a, k, p) || (op.Create? && k == op.id && p == op.agentPid);
  }

  lemma StepPids(r: Run, e: Event)
    requires PidInv(r) && Possible(r, e) && FreshPid(r, e)
    ensures PidInv(Next(r, e))
  {
    match e
    case Call(op) =>
      if op.Start? { StartPids(r, op.id, op.pid); }
      else if op.Adopt? { AdoptPids(r, op.oldId, op.newId); }
      else { OtherPids(r, op); }
    case Wait(_, _) =>
    case Mark(w, code) =>
      var b := DoMarkStopped(r.agent, r.waiters[w].id, code);
      assert forall k, p :: Holds(b, k, p) <==> Holds(r.agent, k, p);
  }

  lemma {:induction false} RunPids(disks: set<Device>, events: seq<Event>)
    requires Legal(disks, events) && FreshPids(disks, events)
    ensures PidInv(After(disks, events))
  {
    if events != [] {
      var n := |events| - 1;
      LegalFront(disks, events);
      RunPids(disks, events[..n]);
      StepPids(After(disks, events[..n]), events[n]);
    }
  }

  /** The mark stops the running container `k`. */
  predicate Stops(a: Agent, b: Agent, k: Id) {
    && k in a.containers && a.containers[k].state == Running
    && k in b.containers && b.containers[k].state == Stopped
  }

  /** In every run, when a wait marks its result: a running container of the awaited process, under
      whatever id, is stopped by it if and only if the id that was waited for still names that
      process; and a running container of another process is stopped by it if and only if that id by
      now names another process that runs. */
  lemma MarkExact(disks: set<Device>, events: seq<Event>, w: WaiterId, code: int, k: Id)
    requires Legal(disks, events) && FreshPids(disks, events) && w in After(disks, events).waiters
    requires k in After(disks, events).agent.containers && After(disks, events).agent.containers[k].state == Running
    ensures var r := After(disks, events);
            var a, b, waiter := r.agent, Next(r, Mark(w, code)).agent, r.waiters[w];
            && (Holds(a, k, waiter.process) ==> (Stops(a, b, k) <==> Holds(a, waiter.id, waiter.process)))
            && (!Holds(a, k, waiter.process) ==> (Stops(a, b, k) <==> waiter.id == k))
            && (Stops(a, b, k) ==> b.containers[k].exitCode == Some(code))
  {
    RunPids(disks, events);
  }

  /** In every run: once a wait has marked a known container with an exit code, deleting it answers its
      pid and that code; deleting an unknown one answers 0 and 0. */
  lemma DeleteAnswers(disks: set<Device>, events: seq<Event>, w: WaiterId, code: int)
    requires Legal(disks, events) && w in After(disks, events).waiters
    ensures var r := After(disks, events);
            var id, marked := r.waiters[w].id, Next(r, Mark(w, code)).agent;
            && (id in r.agent.containers ==>
                  r.agent.containers[id].pid.Some?
                  && Do(marked, Delete(id)).1 == Deleted(r.agent.containers[id].pid.value, code))
            && (id !in r.agent.containers ==> Do(marked, Delete(id)).1 == Deleted(0, 0))
  {
    RunKeeps(disks, events);
    var r := After(disks, events);
    assert r.waiters[w].id in r.agent.containers ==> Linked(r.agent, r.waiters[w].id);
  }

  /** In every run a new container is created without an exit code; a start gives it the new pid and keeps
      the exit code that an earlier run left; and a delete answers 0 while there is none. */
  lemma StartKeepsCode(disks: set<Device>, events: seq<Event>, id: Id, agentPid: nat, pid: nat)
    requires Legal(disks, events)
    ensures var a := After(disks, events).agent;
            && Do(a, Create(id, agentPid)).0.containers == a.containers[id := Container(Some(agentPid), None, Created)]
            && (id in a.containers ==>
                  Do(a, Start(id, pid)).0.containers == a.containers[id := Container(Some(pid), a.containers[id].exitCode, Running)])
            && (id in a.containers && a.containers[id].exitCode.None? ==>
                  a.containers[id].pid.Some? && Do(a, Delete(id)).1 == Deleted(a.containers[id].pid.value, 0))
  {
    RunKeeps(disks, events);
    var a := After(disks, events).agent;
    assert id in a.containers ==> Linked(a, id);
  }

  /** Adopting makes one container fewer exactly when the new id already names another one. */
  lemma AdoptCounts(disks: set<Device>, events: seq<Event>, oldId: Id, newId: Id)
    requires Legal(disks, events) && oldId in After(disks, events).agent.containers
    ensures var a := After(disks, events).agent;
            |DoAdopt(a, oldId, newId).0.containers| == |a.containers| - One(newId in a.containers && newId != oldId)
  {
    RunKeeps(disks, events);
    var a := After(disks, events).agent;
    assert Linked(a, oldId);
    var b := DoAdopt(a, oldId, newId).0;
    var rest := a.containers.Keys - {oldId};
    assert b.containers.Keys == rest + {newId};
    assert |b.containers| == |rest + {newId}| && |a.containers| == |a.containers.Keys|;
    if newId in a.containers && newId != oldId {
      assert rest + {newId} == rest;
    }
  }

  /** In every run, an adoption loses a spawned process, so that no container has it any more, if and
      only if it is the process of the new id's own container, other than the adopted one. */
  lemma AdoptLoses(disks: set<Device>, events: seq<Event>, oldId: Id, newId: Id, k: Id, process: nat)
    requires Legal(disks, events) && FreshPids(disks, events)
    requires oldId in After(disks, events).agent.containers && process in After(disks, events).spawned
    requires Holds(After(disks, events).agent, k, process)
    ensures var b := DoAdopt(After(disks, events).agent, oldId, newId).0;
            (forall l :: !Holds(b, l, process)) <==> k == newId && newId != oldId
  {
    RunPids(disks, events);
    var a := After(disks, events).agent;
    var b := DoAdopt(a, oldId, newId).0;
    if k == newId && newId != oldId {
      forall l ensures !Holds(b, l, process) {
        assert !Holds(a, oldId, process) && (l != k ==> !Holds(a, l, process));
      }
    } else {
      assert Holds(b, if k == oldId then newId else k, process);
    }
  }

  // ------------------------------------------------------------------- three bad runs

  /** A run from a boot without disks, with fresh pids, leads here. */
  ghost predicate Arrives(r: Run) {
    exists events :: Legal({}, events) && FreshPids({}, events) && After({}, events) == r
  }

  lemma Snoc(events: seq<Event>, e: Event)
    requires Legal({}, events) && FreshPids({}, events) && Possible(After({}, events), e) && FreshPid(After({}, events), e)
    ensures Legal({}, events + [e]) && FreshPids({}, events + [e])
    ensures After({}, events + [e]) == Next(After({}, events), e)
  {
    var more := events + [e];
    assert more[..|events|] == events;
    forall i | 0 <= i < |more| ensures Possible(After({}, more[..i]), more[i]) && FreshPid(After({}, more[..i]), more[i]) {
      assert i < |events| ==> more[..i] == events[..i];
    }
  }

  lemma Then(r: Run, e: Event) returns (r': Run)
    requires Arrives(r) && Possible(r, e) && FreshPid(r, e)
    ensures r' == Next(r, e) && Arrives(r')
  {
    var events :| Legal({}, events) && FreshPids({}, events) && After({}, events) == r;
    Snoc(events, e);
    r' := Next(r, e);
  }

  const BOOTED: Run := Run(Agent(map[], {}, map[], map[]), map[], [], {}, {})

  /** Container x runs as process 7. */
  const STARTED: Run :=
    Run(Agent(map["x" := Container(Some(7), None, Running)], {}, map["x" := Receiver(7)], map["x" := LogBuffer(7)]),
        map[], [], {7}, {1})

  lemma BootedArrives()
    ensures Arrives(BOOTED)
  {
    assert Legal({}, []) && FreshPids({}, []) && After({}, []) == BOOTED;
  }

  lemma StartedArrives()
    ensures Arrives(STARTED)
  {
    BootedArrives();
    var r := Then(BOOTED, Call(Create("x", 1)));
    assert r.agent.containers == map["x" := Container(Some(1), None, Created)] && r.own == {1};
    r := Then(r, Call(Start("x", 7)));
    assert r.agent.containers == map["x" := Container(Some(7), None, Running)] && r.spawned == {7};
    assert r == STARTED;
  }

  /** And somebody waits for it. */
  const WAITED: Run := STARTED.(waiters := map[0 := Waiter("x", 7)])

  lemma WaitedArrives()
    ensures Arrives(WAITED)
  {
    StartedArrives();
    var r := Then(STARTED, Wait(0, "x"));
    assert r.waiters == WAITED.waiters;
  }

  /** x was adopted as y. */
  const ADOPTED: Run :=
    Run(Agent(map["y" := Container(Some(7), None, Running)], {}, map["y" := Receiver(7)], map["y" := LogBuffer(7)]),
        map[0 := Waiter("x", 7)], [], {7}, {1})

  lemma AdoptNext()
    ensures Next(WAITED, Call(Adopt("x", "y"))) == ADOPTED
  {
    var b := DoAdopt(WAITED.agent, "x", "y").0;
    assert b.containers == ADOPTED.agent.containers;
    assert b.receivers == ADOPTED.agent.receivers && b.logs == ADOPTED.agent.logs;
  }

  lemma AdoptedArrives()
    ensures Arrives(ADOPTED)
  {
    WaitedArrives();
    AdoptNext();
    var r := Then(WAITED, Call(Adopt("x", "y")));
  }

  /** If x is adopted as y before the mark, the exit is lost: the mark changes nothing and y, whose
      process has exited, goes on as running. */
  lemma LostExitRun(code: int)
    ensures Arrives(ADOPTED) && Possible(ADOPTED, Mark(0, code))
    ensures Next(ADOPTED, Mark(0, code)).agent == ADOPTED.agent
  {
    AdoptedArrives();
  }

  /** x runs as process 7 and y as process 9. */
  const BOTH: Run :=
    Run(Agent(map["x" := Container(Some(7), None, Running), "y" := Container(Some(9), None, Running)], {},
              map["x" := Receiver(7), "y" := Receiver(9)], map["x" := LogBuffer(7), "y" := LogBuffer(9)]),
        map[], [], {7, 9}, {1})

  const CREATED_Y: Run :=
    STARTED.(agent := STARTED.agent.(containers := STARTED.agent.containers["y" := Container(Some(1), None, Created)]))

  lemma CreatedYArrives()
    ensures Arrives(CREATED_Y)
  {
    StartedArrives();
    var r := Then(STARTED, Call(Create("y", 1)));
    assert r.own == {1};
  }

  lemma StartYNext()
    ensures Next(CREATED_Y, Call(Start("y", 9))) == BOTH
  {
    var b := DoStart(CREATED_Y.agent, "y", 9).0;
    assert b.containers == BOTH.agent.containers && {7} + {9} == {7, 9};
    assert b.receivers == BOTH.agent.receivers && b.logs == BOTH.agent.logs;
  }

  lemma BothArrive()
    ensures Arrives(BOTH)
  {
    CreatedYArrives();
    StartYNext();
    var r := Then(CREATED_Y, Call(Start("y", 9)));
  }

  /** Adopting x as y, which runs, leaves no trace of process 9 in any table. */
  lemma AdoptOverRun()
    ensures Arrives(BOTH)
    ensures var b := DoAdopt(BOTH.agent, "x", "y").0;
            && b.containers == map["y" := Container(Some(7), None, Running)]
            && b.receivers == map["y" := Receiver(7)] && b.logs == map["y" := LogBuffer(7)]
  {
    BothArrive();
  }

  /** x was deleted and created anew. */
  const RECREATED: Run := WAITED.(agent := WAITED.agent.(containers := map["x" := Container(Some(1), None, Created)]))

  lemma RecreatedArrives()
    ensures Arrives(RECREATED)
  {
    WaitedArrives();
    var r := Then(WAITED, Call(Delete("x")));
    assert r.agent.containers == map[];
    r := Then(r, Call(Create("x", 1)));
    assert r.agent.containers == RECREATED.agent.containers && r.own == {1};
  }

  /** And started again, as process 9. */
  const RESTARTED: Run :=
    Run(Agent(map["x" := Container(Some(9), None, Running)], {}, map["x" := Receiver(9)], map["x" := LogBuffer(9)]),
        map[0 := Waiter("x", 7)], [], {7, 9}, {1})

  lemma RestartNext()
    ensures Next(RECREATED, Call(Start("x", 9))) == RESTARTED
  {
    var b := DoStart(RECREATED.agent, "x", 9).0;
    assert b.containers == RESTARTED.agent.containers && {7} + {9} == {7, 9};
    assert b.receivers == RESTARTED.agent.receivers && b.logs == RESTARTED.agent.logs;
  }

  lemma RestartedArrives()
    ensures Arrives(RESTARTED)
  {
    RecreatedArrives();
    RestartNext();
    var r := Then(RECREATED, Call(Start("x", 9)));
  }

  /** If x is deleted, created and started anew before the mark, the running process 9 is marked
      stopped with the exit code of process 7. */
  lemma WrongStopRun(code: int)
    ensures Arrives(RESTARTED) && Possible(RESTARTED, Mark(0, code))
    ensures Next(RESTARTED, Mark(0, code)).agent.containers == map["x" := Container(Some(9), Some(code), Stopped)]
  {
    RestartedArrives();
  }

  // --------------------------------------------------------------------------- class

  /** `ContainerManager` */
  class ContainerManager {
    var containers: map<Id, Container>
    var knownDisks: set<Device>
    var exitReceivers: map<Id, Receiver>
    var logs: map<Id, LogBuffer>

    ghost function View(): Agent
      reads this
    {
      Agent(containers, knownDisks, exitReceivers, logs)
    }

    constructor (disks: set<Device>)
      ensures View() == Boot(disks)
    {
      containers, knownDisks, exitReceivers, logs := map[], disks, map[], map[];
    }

    method DiscoverBlockDevice(current: set<Device>) returns (r: Option<Device>, ghost pick: Device)
      modifies this
      ensures Enabled(old(View()), Discover(current, pick))
      ensures (View(), Dev(r)) == Do(old(View()), Discover(current, pick))
    {
      var newDevices := current - knownDisks;
      pick := "";
      if newDevices != {} {
        var dev :| dev in newDevices;
        pick := dev;
        knownDisks := knownDisks + {dev};
        return Some(dev), pick;
      }
      return None, pick;
    }

    /** The end of `create`, once the bundle is mounted and its configuration is written. */
    method FinishCreate(id: Id, agentPid: nat) returns (pid: nat)
      modifies this
      ensures (View(), Pid(pid)) == Do(old(View()), Create(id, agentPid))
    {
      containers := containers[id := Container(Some(agentPid), None, Created)];
      return agentPid;
    }

    method StartContainer(id: Id, spawned: nat) returns (answer: Answer)
      modifies this
      ensures (View(), answer) == Do(old(View()), Start(id, spawned))
    {
      if id !in containers {
        return NotFound;
      }
      var c := containers[id];
      containers := containers[id := c.(state := Running, pid := Some(spawned))];
      logs := logs[id := LogBuffer(spawned)];
      exitReceivers := exitReceivers[id := Receiver(spawned)];
      return Pid(spawned);
    }

    method DeleteContainer(id: Id) returns (pid: nat, code: int)
      modifies this
      ensures (View(), Deleted(pid, code)) == Do(old(View()), Delete(id))
    {
      pid, code := 0, 0;
      if id in containers {
        var c := containers[id];
        containers := containers - {id};
        pid, code := OrElse(c.pid, 0), OrElse(c.exitCode, 0);
      }
    }

    method GetExitReceiver(id: Id) returns (r: Option<Receiver>)
      ensures r == if id in exitReceivers then Some(exitReceivers[id]) else None
    {
      if id in exitReceivers {
        return Some(exitReceivers[id]);
      }
      return None;
    }

    method MarkStopped(id: Id, code: int)
      modifies this
      ensures View() == DoMarkStopped(old(View()), id, code)
    {
      if id in containers {
        var c := containers[id];
        containers := containers[id := c.(state := Stopped, exitCode := Some(code))];
      }
    }

    method AdoptContainer(oldId: Id, newId: Id) returns (answer: Answer)
      modifies this
      ensures (View(), answer) == Do(old(View()), Adopt(oldId, newId))
    {
      if oldId !in containers {
        return NotFound;
      }
      var c := containers[oldId];
      containers := containers - {oldId};
      if c.pid.None? {
        return NoPid;
      }
      if oldId in exitReceivers {
        var rx := exitReceivers[oldId];
        exitReceivers := exitReceivers - {oldId};
        exitReceivers := exitReceivers[newId := rx];
      }
      if oldId in logs {
        var buf := logs[oldId];
        logs := logs - {oldId};
        logs := logs[newId := buf];
      }
      containers := containers[newId := c];
      return Pid(c.pid.value);
    }
  }
}
