/** The shim's handlers as they are written (crates/shim/src/instance.rs): the table `VMS`, the
    shared container counts, and the requests sent to the daemon. What the daemon answers is a
    parameter. `PodSystem` has the same handlers interleaved with the daemon; `ShimRefinement` relates
    the two. */
module ShimClass {
  import opened Basics
  import opened PoolMachine
  import opened PodSystem

  datatype Request =
    | AcquireFor(p: PodId, inst: InstanceId)
    | AddTo(target: VmId, inst: InstanceId)
    | ReleaseOf(vm: Option<VmId>)
    | KillIn(vm: Option<VmId>, inst: InstanceId, signal: nat)
    | DeleteIn(vm: Option<VmId>, inst: InstanceId)

  datatype Shim = Table(vms: map<PodId, SharedVm>, sent: seq<Request>)

  /** A call of a handler, with the answers it will get: whether the image could be prepared, the VM
      that an acquire returns, whether a container can be added. */
  datatype Call =
    | Sandbox(p: PodId)
    | Container(p: PodId, inst: InstanceId, image: bool, acquired: Option<VmId>, added: bool)
    | Kill(p: PodId, inst: InstanceId, signal: nat)
    | Delete(p: PodId, inst: InstanceId)

  function Send(s: Shim, r: Request): Shim {
    s.(sent := s.sent + [r])
  }

  function Put(s: Shim, p: PodId, sv: SharedVm): Shim {
    s.(vms := s.vms[p := sv])
  }

  function Drop(s: Shim, p: PodId): Shim {
    s.(vms := s.vms - {p})
  }

  function DoContainer(s: Shim, p: PodId, inst: InstanceId, image: bool, acquired: Option<VmId>, added: bool): (Shim, bool) {
    if p !in s.vms || !image then (s, false)
    else
      var sv := s.vms[p];
      if sv.vm.Some? then
        var s' := Send(s, AddTo(sv.vm.value, inst));
        if added then (Put(s', p, AddedEntry(sv)), true) else (s', false)
      else
        var s' := Send(s, AcquireFor(p, inst));
        if acquired.Some? then (Put(s', p, AcquiredEntry(sv, acquired.value)), true) else (s', false)
  }

  function DoKill(s: Shim, p: PodId, inst: InstanceId, signal: nat): Shim {
    if p !in s.vms then s
    else if KillEnds(p, inst, signal) then
      Drop(if s.vms[p].vm.Some? then Send(s, ReleaseOf(s.vms[p].vm)) else s, p)
    else Send(s, KillIn(s.vms[p].vm, inst, signal))
  }

  function DoDelete(s: Shim, p: PodId, inst: InstanceId): Shim {
    if p !in s.vms then s
    else if DeleteReleases(s.vms[p]) then Drop(Send(s, ReleaseOf(s.vms[p].vm)), p)
    else Put(Send(s, DeleteIn(s.vms[p].vm, inst)), p, DeletedEntry(s.vms[p]))
  }

  function Handle(s: Shim, c: Call): (Shim, bool) {
    match c
    case Sandbox(p) => (Put(s, p, StartSandboxEntry()), true)
    case Container(p, inst, image, acquired, added) => DoContainer(s, p, inst, image, acquired, added)
    case Kill(p, inst, signal) => (DoKill(s, p, inst, signal), true)
    case Delete(p, inst) => (DoDelete(s, p, inst), true)
  }

  /** Exactly which kills give up a sandbox: SIGKILL or SIGTERM to the sandbox itself. Its VM, if it has
      one, is then asked to be released; any other signal is only passed on. */
  lemma KillExact(s: Shim, p: PodId, inst: InstanceId, signal: nat)
    requires p in s.vms
    ensures var s' := DoKill(s, p, inst, signal);
            && (p !in s'.vms <==> inst == p && (signal == 9 || signal == 15))
            && (p in s'.vms ==> s'.vms == s.vms && s'.sent == s.sent + [KillIn(s.vms[p].vm, inst, signal)])
            && (p !in s'.vms ==> s'.vms == s.vms - {p}
                                 && s'.sent == s.sent + if s.vms[p].vm.Some? then [ReleaseOf(s.vms[p].vm)] else [])
  {
  }

  /** Exactly which deletes give up a sandbox: those that find a count of at most 1. Any other delete
      only counts down and is passed on. */
  lemma DeleteExact(s: Shim, p: PodId, inst: InstanceId)
    requires p in s.vms
    ensures var s' := DoDelete(s, p, inst);
            && (p !in s'.vms <==> s.vms[p].count <= 1)
            && (p in s'.vms ==> s'.vms == s.vms[p := SharedVm(s.vms[p].count - 1, s.vms[p].vm)]
                                && s'.sent == s.sent + [DeleteIn(s.vms[p].vm, inst)])
            && (p !in s'.vms ==> s'.vms == s.vms - {p} && s'.sent == s.sent + [ReleaseOf(s.vms[p].vm)])
  {
  }

  /** A start of a container: nothing happens without a sandbox or an image; the first container asks for
      a VM, every later one is added to it; the count goes up by one exactly on success. */
  lemma ContainerExact(s: Shim, p: PodId, inst: InstanceId, image: bool, acquired: Option<VmId>, added: bool)
    ensures var (s', ok) := DoContainer(s, p, inst, image, acquired, added);
            && (ok <==> p in s.vms && image && if s.vms[p].vm.Some? then added else acquired.Some?)
            && (p !in s.vms || !image ==> s' == s)
            && (p in s.vms && image ==>
                  s'.sent == s.sent + [if s.vms[p].vm.Some? then AddTo(s.vms[p].vm.value, inst) else AcquireFor(p, inst)])
            && (!ok ==> s'.vms == s.vms)
            && (ok ==> s'.vms == s.vms[p := SharedVm(s.vms[p].count + 1, if s.vms[p].vm.Some? then s.vms[p].vm else acquired)])
  {
  }

  // ---------------------------------------------------------------------------- class

  /** `SharedVmState`, shared by whoever has looked it up. */
  class SharedState {
    var containerCount: int
    const daemonVmId: Option<VmId>

    constructor (count: int, vm: Option<VmId>)
      ensures containerCount == count && daemonVmId == vm
    {
      containerCount, daemonVmId := count, vm;
    }
  }

  class Handlers {
    var vms: map<PodId, SharedState>
    var sent: seq<Request>

    /** No two pods share a state. */
    ghost predicate Valid()
      reads this
    {
      forall p, q :: p in vms && q in vms && p != q ==> vms[p] != vms[q]
    }

    ghost function View(): Shim
      reads this, vms.Values
    {
      Table(map p | p in vms :: SharedVm(vms[p].containerCount, vms[p].daemonVmId), sent)
    }

    constructor ()
      ensures Valid() && View() == Table(map[], []) && vms == map[]
    {
      vms, sent := map[], [];
    }

    method StartSandbox(p: PodId)
      requires Valid()
      modifies this
      ensures Valid() && View() == Handle(old(View()), Sandbox(p)).0
    {
      var state := new SharedState(1, None);
      vms := vms[p := state];
    }

    method StartContainer(p: PodId, inst: InstanceId, image: bool, acquired: Option<VmId>, added: bool) returns (ok: bool)
      requires Valid()
      modifies this, vms.Values
      ensures Valid() && (View(), ok) == DoContainer(old(View()), p, inst, image, acquired, added)
    {
      if p !in vms || !image {
        return false;
      }
      var active := vms[p];
      if active.daemonVmId.Some? {
        sent := sent + [AddTo(active.daemonVmId.value, inst)];
        if !added {
          assert View().vms == old(View()).vms;
          return false;
        }
      } else {
        sent := sent + [AcquireFor(p, inst)];
        if acquired.None? {
          assert View().vms == old(View()).vms;
          return false;
        }
        active := new SharedState(active.containerCount, acquired);
        vms := vms[p := active];
      }
      active.containerCount := active.containerCount + 1;
      ghost var before := old(View());
      assert View().vms == before.vms[p := SharedVm(before.vms[p].count + 1, active.daemonVmId)];
      return true;
    }

    method KillInstance(p: PodId, inst: InstanceId, signal: nat)
      requires Valid()
      modifies this
      ensures Valid() && View() == DoKill(old(View()), p, inst, signal)
    {
      if p in vms {
        var state := vms[p];
        if inst == p && (signal == 9 || signal == 15) {
          if state.daemonVmId.Some? {
            sent := sent + [ReleaseOf(state.daemonVmId)];
          }
          vms := vms - {p};
          assert View().vms == old(View()).vms - {p};
        } else {
          sent := sent + [KillIn(state.daemonVmId, inst, signal)];
        }
      }
    }

    method DeleteInstance(p: PodId, inst: InstanceId)
      requires Valid()
      modifies this, vms.Values
      ensures Valid() && View() == DoDelete(old(View()), p, inst)
    {
      if p in vms {
        var state := vms[p];
        var prev := state.containerCount;
        state.containerCount := prev - 1;
        if prev <= 1 {
          sent := sent + [ReleaseOf(state.daemonVmId)];
          vms := vms - {p};
        } else {
          sent := sent + [DeleteIn(state.daemonVmId, inst)];
        }
      }
    }
  }

  // ---------------------------------------------------------------------------- runs

  /** A run of calls in any order, with the VMs it was granted and those whose entry a second start
      of the same sandbox overwrote. */
  datatype Life = Life(shim: Shim, granted: set<VmId>, lost: set<VmId>)

  function Grants(s: Shim, c: Call): set<VmId> {
    if c.Container? && Handle(s, c).1 && s.vms[c.p].vm.None? then {c.acquired.value} else {}
  }

  function Overwrites(s: Shim, c: Call): set<VmId> {
    if c.Sandbox? && c.p in s.vms && s.vms[c.p].vm.Some? then {s.vms[c.p].vm.value} else {}
  }

  function Step(l: Life, c: Call): Life {
    Life(Handle(l.shim, c).0, l.granted + Grants(l.shim, c), l.lost + Overwrites(l.shim, c))
  }

  /** The daemon never grants a VM twice, see `PoolTheorems.NoSharedGrant`. */
  predicate Fresh(l: Life, c: Call) {
    l.granted !! Grants(l.shim, c)
  }

  function After(calls: seq<Call>): Life {
    if calls == [] then Life(Table(map[], []), {}, {}) else Step(After(calls[..|calls| - 1]), calls[|calls| - 1])
  }

  ghost predicate AllFresh(calls: seq<Call>) {
    forall i :: 0 <= i < |calls| ==> Fresh(After(calls[..i]), calls[i])
  }

  /** How often the release of `id` was asked for. */
  function Releases(sent: seq<Request>, id: VmId): nat {
    if sent == [] then 0
    else Releases(sent[..|sent| - 1], id) + One(sent[|sent| - 1] == ReleaseOf(Some(id)))
  }

  predicate Holds(s: Shim, p: PodId, id: VmId) {
    p in s.vms && s.vms[p].vm == Some(id)
  }

  /** Where a VM is: never granted, held by exactly one entry, or given up in one way. */
  ghost predicate Placed(l: Life, id: VmId) {
    var n := Releases(l.shim.sent, id);
    && (id !in l.granted ==> n == 0 && id !in l.lost && forall p :: !Holds(l.shim, p, id))
    && (id in l.granted ==>
          || (n == 0 && id !in l.lost && exists p :: Holds(l.shim, p, id))
          || (n + One(id in l.lost) == 1 && forall p :: !Holds(l.shim, p, id)))
    && (forall p, q :: Holds(l.shim, p, id) && Holds(l.shim, q, id) ==> p == q)
  }

  lemma Sends(s: Shim, r: Request, id: VmId)
    ensures Releases(Send(s, r).sent, id) == Releases(s.sent, id) + One(r == ReleaseOf(Some(id)))
  {
    assert (s.sent + [r])[..|s.sent|] == s.sent;
  }

  lemma SandboxPlaces(l: Life, p: PodId, id: VmId)
    requires Placed(l, id)
    ensures Placed(Step(l, Sandbox(p)), id)
  {
    var m := Step(l, Sandbox(p));
    assert forall q :: Holds(m.shim, q, id) <==> q != p && Holds(l.shim, q, id);
    assert id in Overwrites(l.shim, Sandbox(p)) <==> Holds(l.shim, p, id);
  }

  /** A call that keeps every entry's VM and releases nothing. */
  lemma SameHolders(l: Life, m: Life, id: VmId)
    requires Placed(l, id) && m.granted == l.granted && m.lost == l.lost
    requires Releases(m.shim.sent, id) == Releases(l.shim.sent, id)
    requires forall q :: Holds(m.shim, q, id) <==> Holds(l.shim, q, id)
    ensures Placed(m, id)
  {
  }

  /** A call that takes out the entry of `p` and releases its VM. */
  lemma GivesUp(l: Life, m: Life, p: PodId, id: VmId)
    requires Placed(l, id) && m.granted == l.granted && m.lost == l.lost
    requires Releases(m.shim.sent, id) == Releases(l.shim.sent, id) + One(Holds(l.shim, p, id))
    requires forall q :: Holds(m.shim, q, id) <==> q != p && Holds(l.shim, q, id)
    ensures Placed(m, id)
  {
  }

  lemma ContainerSends(s: Shim, c: Call, id: VmId)
    requires c.Container?
    ensures Releases(Handle(s, c).0.sent, id) == Releases(s.sent, id)
  {
    if c.p in s.vms && c.image {
      if s.vms[c.p].vm.Some? {
        Sends(s, AddTo(s.vms[c.p].vm.value, c.inst), id);
      } else {
        Sends(s, AcquireFor(c.p, c.inst), id);
      }
    }
  }

  lemma ContainerHolds(s: Shim, c: Call, id: VmId, q: PodId)
    requires c.Container?
    ensures Holds(Handle(s, c).0, q, id) <==> Holds(s, q, id) || (q == c.p && id in Grants(s, c))
  {
  }

  lemma ContainerEffect(s: Shim, c: Call, id: VmId)
    requires c.Container?
    ensures Releases(Handle(s, c).0.sent, id) == Releases(s.sent, id)
    ensures forall q :: Holds(Handle(s, c).0, q, id) <==> Holds(s, q, id) || (q == c.p && id in Grants(s, c))
  {
    ContainerSends(s, c, id);
    forall q ensures Holds(Handle(s, c).0, q, id) <==> Holds(s, q, id) || (q == c.p && id in Grants(s, c)) {
      ContainerHolds(s, c, id, q);
    }
  }

  /** The granted VM goes to `p`, where nothing is held. */
  lemma Granting(l: Life, m: Life, p: PodId, id: VmId)
    requires Placed(l, id) && id !in l.granted && m.granted == l.granted + {id} && m.lost == l.lost
    requires Releases(m.shim.sent, id) == Releases(l.shim.sent, id)
    requires forall q :: Holds(m.shim, q, id) <==> Holds(l.shim, q, id) || q == p
    ensures Placed(m, id)
  {
    assert Holds(m.shim, p, id);
  }

  lemma ContainerPlaces(l: Life, c: Call, id: VmId)
    requires c.Container? && Placed(l, id) && Fresh(l, c)
    ensures Placed(Step(l, c), id)
  {
    var m := Step(l, c);
    ContainerEffect(l.shim, c, id);
    if id in Grants(l.shim, c) {
      Granting(l, m, c.p, id);
    } else {
      SameHolders(l.(granted := m.granted), m, id);
    }
  }

  /** The entry goes, and with it the VM if it is `id`, or nothing is released and nothing changes hands. */
  lemma KillEffect(s: Shim, c: Call, id: VmId)
    requires c.Kill? && c.p in s.vms
    ensures Releases(DoKill(s, c.p, c.inst, c.signal).sent, id)
            == Releases(s.sent, id) + One(KillEnds(c.p, c.inst, c.signal) && Holds(s, c.p, id))
  {
    var vm := s.vms[c.p].vm;
    if !KillEnds(c.p, c.inst, c.signal) {
      Sends(s, KillIn(vm, c.inst, c.signal), id);
    } else if vm.Some? {
      Sends(s, ReleaseOf(vm), id);
    }
  }

  lemma DeleteEffect(s: Shim, c: Call, id: VmId)
    requires c.Delete? && c.p in s.vms
    ensures Releases(DoDelete(s, c.p, c.inst).sent, id)
            == Releases(s.sent, id) + One(DeleteReleases(s.vms[c.p]) && Holds(s, c.p, id))
  {
    var vm := s.vms[c.p].vm;
    if DeleteReleases(s.vms[c.p]) {
      Sends(s, ReleaseOf(vm), id);
    } else {
      Sends(s, DeleteIn(vm, c.inst), id);
    }
  }

  lemma EndHolds(s: Shim, c: Call, id: VmId, q: PodId)
    requires (c.Kill? || c.Delete?) && c.p in s.vms
    ensures c.p in Handle(s, c).0.vms <==> !(if c.Kill? then KillEnds(c.p, c.inst, c.signal) else DeleteReleases(s.vms[c.p]))
    ensures Holds(Handle(s, c).0, q, id) <==> Holds(s, q, id) && (q == c.p ==> c.p in Handle(s, c).0.vms)
  {
  }

  /** What the end of an instance does to who holds `id`. */
  lemma EndEffect(s: Shim, c: Call, id: VmId)
    requires (c.Kill? || c.Delete?) && c.p in s.vms
    ensures var s' := Handle(s, c).0;
            && Releases(s'.sent, id) == Releases(s.sent, id) + One(c.p !in s'.vms && Holds(s, c.p, id))
            && forall q :: Holds(s', q, id) <==> Holds(s, q, id) && (q == c.p ==> c.p in s'.vms)
  {
    var s' := Handle(s, c).0;
    if c.Kill? {
      KillEffect(s, c, id);
    } else {
      DeleteEffect(s, c, id);
    }
    EndHolds(s, c, id, c.p);
    forall q ensures Holds(s', q, id) <==> Holds(s, q, id) && (q == c.p ==> c.p in s'.vms) {
      EndHolds(s, c, id, q);
    }
  }

  lemma EndPlaces(l: Life, c: Call, id: VmId)
    requires (c.Kill? || c.Delete?) && Placed(l, id)
    ensures Placed(Step(l, c), id)
  {
    var m := Step(l, c);
    if c.p in l.shim.vms {
      EndEffect(l.shim, c, id);
      if c.p in m.shim.vms {
        SameHolders(l, m, id);
      } else {
        GivesUp(l, m, c.p, id);
      }
    }
  }

  /** For every sequence of calls, even with failed starts and deletes of instances that never
      started: a granted VM is held by exactly one entry or its release was asked for exactly once
      or a second start of its sandbox overwrote its entry; never two of these. */
  lemma {:induction false} VmsConserved(calls: seq<Call>, id: VmId)
    requires AllFresh(calls)
    ensures Placed(After(calls), id)
  {
    if calls != [] {
      var n := |calls| - 1;
      var front, c := calls[..n], calls[n];
      forall i | 0 <= i < n ensures Fresh(After(front[..i]), front[i]) {
        assert front[..i] == calls[..i];
      }
      VmsConserved(front, id);
      match c
      case Sandbox(p) => SandboxPlaces(After(front), p, id);
      case Container(_, _, _, _, _) => ContainerPlaces(After(front), c, id);
      case Kill(_, _, _) => EndPlaces(After(front), c, id);
      case Delete(_, _) => EndPlaces(After(front), c, id);
    }
  }
}
