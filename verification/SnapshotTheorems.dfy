/** What the snapshot cache guarantees for each key in every run, and exactly when it does not. */
module SnapshotTheorems {
  import opened Basics
  import opened SnapshotCache
  import opened SnapshotMachine

  lemma ReachableInv(max: nat, s: State, key: Key)
    requires Reachable(max, s)
    ensures KeyInv(s, key) && ImageInv(s)
  {
    var run :| Reaches(max, InitialState(), run, s);
    RunKeeps(max, InitialState(), run, s, key);
    RunImage(max, InitialState(), run, s);
  }

  predicate EntryComplete(s: State, key: Key) {
    key in s.snapshots ==> key in s.dirs && s.dirs[key].Complete?
  }

  /** In every run: a key for which no shadow was launched while it was cached or in production has
      at most one producer, and if it is cached, its complete directory. */
  lemma CleanKey(max: nat, s: State, key: Key)
    requires Reachable(max, s) && Clean(s, key)
    ensures EntryComplete(s, key)
    ensures forall i, j :: Produces(s.shadows, i, key) && Produces(s.shadows, j, key) ==> i == j
    ensures key in s.snapshots ==> !InProduction(s, key)
  {
    ReachableInv(max, s, key);
  }

  /** The eviction loop never deletes the directory it is about to publish: that key is not among
      the victims, and its directory is as complete after the publication as before. */
  lemma OwnDirectorySafe(max: nat, s: State, j: ShadowId, evicted: set<Key>, left: set<Key>)
    requires Reachable(max, s) && ShadowEnabled(max, s, j, Publish(evicted, left)) && Clean(s, s.shadows[j].key)
    ensures s.shadows[j].key !in evicted
    ensures var s' := DoShadow(max, s, j, Publish(evicted, left));
            && s.shadows[j].key in s'.snapshots && s.shadows[j].key in s'.dirs
            && s'.dirs[s.shadows[j].key] == s.dirs[s.shadows[j].key] == Complete(s.shadows[j].built)
  {
    ReachableInv(max, s, s.shadows[j].key);
    assert Produces(s.shadows, j, s.shadows[j].key);
  }

  /** A publication leaves at most max(1, max_snapshots) entries, however many there were. */
  lemma PublishBound(max: nat, s: State, j: ShadowId, evicted: set<Key>, left: set<Key>)
    requires ShadowEnabled(max, s, j, Publish(evicted, left))
    ensures |DoPublish(s, j, s.shadows[j], evicted, left).snapshots| <= if max < 1 then 1 else max
  {
    var kept := s.snapshots - evicted;
    var sh := s.shadows[j];
    var after := kept[sh.key := Entry(sh.key, s.clock + 1, sh.pc.mtime)];
    assert s.snapshots.Keys == kept.Keys + evicted;
    assert after.Keys == kept.Keys + {sh.key};
  }

  // ------------------------------------------------- one trigger call per key

  predicate OneTrigger(s: State, key: Key) {
    forall i, j :: i in s.triggers && j in s.triggers && s.triggers[i].key == key == s.triggers[j].key ==> i == j
  }

  /** In every state of the run at most one call of `trigger_shadow` for the key is under way. */
  ghost predicate SerialFor(max: nat, s: State, run: seq<Step>, key: Key)
    decreases |run|
  {
    && OneTrigger(s, key)
    && (run != [] ==> Enabled(max, s, run[0]) && SerialFor(max, Do(max, s, run[0]), run[1..], key))
  }

  predicate Of(shadows: map<ShadowId, Shadow>, j: ShadowId, key: Key) {
    j in shadows && shadows[j].key == key
  }

  predicate Spawning(triggers: map<TriggerId, Trigger>, i: TriggerId, key: Key) {
    i in triggers && triggers[i].key == key && triggers[i].pc.Spawned?
  }

  /** What the handles are for: shadows of the key are unique; each is announced by a handle or by the
      call that is about to insert it; and a call that found no handle will find no shadow. */
  ghost predicate Protocol(s: State, key: Key) {
    && (forall i, j :: Of(s.shadows, i, key) && Of(s.shadows, j, key) ==> i == j)
    && (forall j :: Of(s.shadows, j, key) ==> key in s.handles || exists i :: Spawning(s.triggers, i, key))
    && (forall i, j :: i in s.triggers && s.triggers[i].key == key && s.triggers[i].pc.Clear? ==> !Of(s.shadows, j, key))
    && key !in s.doubled
  }

  lemma ProtocolLaunch(s: State, i: TriggerId, j: ShadowId, key: Key)
    requires Protocol(s, key) && OneTrigger(s, key) && TriggerEnabled(s, Launch(i, j))
    ensures Protocol(DoTrigger(s, Launch(i, j)), key)
  {
    var s' := DoTrigger(s, Launch(i, j));
    if s.triggers[i].key == key {
      assert Spawning(s'.triggers, i, key);
      assert forall h :: !Of(s.shadows, h, key);
      forall h | Of(s'.shadows, h, key) ensures h == j {
        assert h != j ==> Of(s.shadows, h, key);
      }
      assert forall h :: Produces(s.shadows, h, key) ==> Of(s.shadows, h, key);
    } else {
      assert forall h :: Of(s'.shadows, h, key) <==> Of(s.shadows, h, key);
      assert forall h :: Spawning(s.triggers, h, key) ==> Spawning(s'.triggers, h, key);
    }
  }

  /** No handle and no other call: so no shadow. */
  lemma ProtocolCheck(s: State, i: TriggerId, key: Key)
    requires Protocol(s, key) && OneTrigger(s, key) && TriggerEnabled(s, CheckHandles(i))
    ensures Protocol(DoTrigger(s, CheckHandles(i)), key)
  {
    var s' := DoTrigger(s, CheckHandles(i));
    forall h | Spawning(s.triggers, h, key) ensures Spawning(s'.triggers, h, key) {
    }
  }

  lemma ProtocolTrigger(s: State, t: TriggerStep, key: Key)
    requires Protocol(s, key) && OneTrigger(s, key) && TriggerEnabled(s, t) && (t.Begin? || t.InsertHandle?)
    ensures Protocol(DoTrigger(s, t), key)
  {
    var s' := DoTrigger(s, t);
    assert s'.shadows == s.shadows && s'.doubled == s.doubled && s.handles <= s'.handles;
    forall i | Spawning(s.triggers, i, key) ensures key in s'.handles || Spawning(s'.triggers, i, key) {
    }
  }

  lemma ProtocolShadow(max: nat, s: State, j: ShadowId, x: ShadowStep, key: Key)
    requires Protocol(s, key) && ShadowEnabled(max, s, j, x)
    ensures Protocol(DoShadow(max, s, j, x), key)
  {
    var s' := DoShadow(max, s, j, x);
    assert s'.triggers == s.triggers && s'.doubled == s.doubled;
    assert forall h :: Of(s'.shadows, h, key) ==> Of(s.shadows, h, key) && !(x.RemoveHandle? && h == j);
    assert key !in s'.handles && key in s.handles ==> Of(s.shadows, j, key) && x.RemoveHandle?;
  }

  lemma ProtocolStep(max: nat, s: State, step: Step, key: Key)
    requires Protocol(s, key) && OneTrigger(s, key) && Enabled(max, s, step)
    ensures Protocol(Do(max, s, step), key)
  {
    match step
    case TriggerStep(t) =>
      if t.Launch? { ProtocolLaunch(s, t.i, t.j, key); }
      else if t.CheckHandles? { ProtocolCheck(s, t.i, key); }
      else { ProtocolTrigger(s, t, key); }
    case ShadowStep(j, x) => ProtocolShadow(max, s, j, x, key);
    case Modify(path, _) =>
      assert forall h :: Of(Touched(s.shadows, path), h, key) <==> Of(s.shadows, h, key);
    case CacheStep(_) =>
    case Delete(_) =>
  }

  lemma {:induction false} ProtocolRun(max: nat, s: State, run: seq<Step>, r: State, key: Key)
    requires Protocol(s, key) && Reaches(max, s, run, r) && SerialFor(max, s, run, key)
    ensures Protocol(r, key) && OneTrigger(r, key)
    decreases |run|
  {
    if run != [] {
      ProtocolStep(max, s, run[0], key);
      ProtocolRun(max, Do(max, s, run[0]), run[1..], r, key);
    }
  }

  /** What the handle map provides: if calls for the key come one after the other, the key never has
      two shadows, and no launch for it ever meets one. */
  lemma OneShadowPerKey(max: nat, run: seq<Step>, s: State, key: Key)
    requires Reaches(max, InitialState(), run, s) && SerialFor(max, InitialState(), run, key)
    ensures forall i, j :: Of(s.shadows, i, key) && Of(s.shadows, j, key) ==> i == j
    ensures forall i, j :: TriggerEnabled(s, Launch(i, j)) && s.triggers[i].key == key ==> !InProduction(s, key)
    ensures key !in s.doubled
  {
    ProtocolRun(max, InitialState(), run, s, key);
    assert forall j :: Produces(s.shadows, j, key) ==> Of(s.shadows, j, key);
  }

  /** If calls for the key come one after the other and none launched a shadow while the key was
      cached, a cached key has its complete directory on disk. */
  lemma EntriesHaveDirectories(max: nat, run: seq<Step>, s: State, key: Key)
    requires Reaches(max, InitialState(), run, s) && SerialFor(max, InitialState(), run, key)
    requires key !in s.recached && key in s.snapshots
    ensures key in s.dirs && s.dirs[key].Complete?
  {
    OneShadowPerKey(max, run, s, key);
    CleanKey(max, s, key);
  }

  // ------------------------------------------------------------ what the cache check is for

  predicate Publishes(s: State, step: Step, key: Key) {
    step.ShadowStep? && step.x.Publish? && step.j in s.shadows && s.shadows[step.j].key == key
  }

  /** Somewhere in the run a shadow publishes the key. */
  ghost predicate PublishIn(max: nat, s: State, run: seq<Step>, key: Key)
    decreases |run|
  {
    run != [] && (Publishes(s, run[0], key) || (Enabled(max, s, run[0]) && PublishIn(max, Do(max, s, run[0]), run[1..], key)))
  }

  predicate BeginsAs(step: Step, i: TriggerId) {
    step.TriggerStep? && step.t.Begin? && step.t.i == i
  }

  predicate BeginsFor(step: Step, key: Key) {
    step.TriggerStep? && step.t.Begin? && step.t.key == key
  }

  /** Only a publication caches a key. */
  lemma AbsentStays(max: nat, s: State, step: Step, key: Key)
    requires Enabled(max, s, step) && key !in s.snapshots && !Publishes(s, step, key)
    ensures key !in Do(max, s, step).snapshots
  {
    match step
    case CacheStep(c) => assert key !in DoCache(s, c).snapshots;
    case TriggerStep(t) => AbsentTrigger(s, t, key);
    case ShadowStep(j, x) => AbsentShadow(max, s, j, x, key);
    case Modify(_, _) =>
    case Delete(_) =>
  }

  lemma AbsentTrigger(s: State, t: TriggerStep, key: Key)
    requires TriggerEnabled(s, t) && key !in s.snapshots
    ensures key !in DoTrigger(s, t).snapshots
  {
  }

  lemma AbsentShadow(max: nat, s: State, j: ShadowId, x: ShadowStep, key: Key)
    requires ShadowEnabled(max, s, j, x) && key !in s.snapshots && !(x.Publish? && s.shadows[j].key == key)
    ensures key !in DoShadow(max, s, j, x).snapshots
  {
  }

  /** A call that is under way began, with its key. */
  lemma CallBegan(max: nat, s: State, step: Step, i: TriggerId)
    requires Enabled(max, s, step) && !BeginsAs(step, i) && i in Do(max, s, step).triggers
    ensures i in s.triggers && s.triggers[i].key == Do(max, s, step).triggers[i].key
  {
    match step
    case TriggerStep(t) => CallStays(s, t, i);
    case ShadowStep(j, x) => ShadowsKeepCalls(max, s, j, x);
    case CacheStep(c) => assert DoCache(s, c).triggers == s.triggers;
    case Modify(_, _) =>
    case Delete(_) =>
  }

  lemma CallStays(s: State, t: TriggerStep, i: TriggerId)
    requires TriggerEnabled(s, t) && !(t.Begin? && t.i == i) && i in DoTrigger(s, t).triggers
    ensures i in s.triggers && s.triggers[i].key == DoTrigger(s, t).triggers[i].key
  {
  }

  lemma ShadowsKeepCalls(max: nat, s: State, j: ShadowId, x: ShadowStep)
    requires ShadowEnabled(max, s, j, x)
    ensures DoShadow(max, s, j, x).triggers == s.triggers && DoShadow(max, s, j, x).recached == s.recached
  {
  }

  lemma {:induction false} SinceBegin(max: nat, s: State, run: seq<Step>, r: State, i: TriggerId, key: Key)
    requires Reaches(max, s, run, r) && i in r.triggers
    requires forall k :: 0 <= k < |run| ==> !BeginsAs(run[k], i)
    ensures i in s.triggers && s.triggers[i].key == r.triggers[i].key
    ensures key !in s.snapshots && key in r.snapshots ==> PublishIn(max, s, run, key)
    decreases |run|
  {
    if run != [] {
      assert !BeginsAs(run[0], i);
      SinceBegin(max, Do(max, s, run[0]), run[1..], r, i, key);
      CallBegan(max, s, run[0], i);
      if key !in s.snapshots && !Publishes(s, run[0], key) {
        AbsentStays(max, s, run[0], key);
      }
    }
  }

  /** A launch finds its key cached only if a shadow published that key after the call began: in every
      continuation of a `trigger_shadow` call up to its launch. */
  lemma LaunchMeetsCached(max: nat, s: State, i: TriggerId, key: Key, path: Path, rm: Removal, run: seq<Step>, r: State, j: ShadowId)
    requires TriggerEnabled(s, Begin(i, key, path, rm)) && Reaches(max, DoTrigger(s, Begin(i, key, path, rm)), run, r)
    requires forall k :: 0 <= k < |run| ==> !BeginsAs(run[k], i)
    requires TriggerEnabled(r, Launch(i, j))
    ensures r.triggers[i].key == key
    ensures key in r.snapshots ==> PublishIn(max, DoTrigger(s, Begin(i, key, path, rm)), run, key)
  {
    SinceBegin(max, DoTrigger(s, Begin(i, key, path, rm)), run, r, i, key);
  }

  /** The calls for the key that are under way, and its shadows, were so before. */
  ghost predicate NothingNew(s: State, r: State, key: Key) {
    forall i :: i in r.triggers && r.triggers[i].key == key ==> i in s.triggers && s.triggers[i].key == key
  }

  lemma {:induction false} NoNewCalls(max: nat, s: State, run: seq<Step>, r: State, key: Key)
    requires Reaches(max, s, run, r) && forall k :: 0 <= k < |run| ==> !BeginsFor(run[k], key)
    ensures NothingNew(s, r, key)
    decreases |run|
  {
    if run != [] {
      var s' := Do(max, s, run[0]);
      assert !BeginsFor(run[0], key);
      assert forall k :: 0 <= k < |run[1..]| ==> run[1..][k] == run[k + 1];
      NoNewCalls(max, s', run[1..], r, key);
      forall i | i in s'.triggers && s'.triggers[i].key == key ensures i in s.triggers && s.triggers[i].key == key {
        if !BeginsAs(run[0], i) {
          CallBegan(max, s, run[0], i);
        }
      }
    }
  }

  /** Shadows come from launches. */
  lemma {:induction false} NoNewShadows(max: nat, s: State, run: seq<Step>, r: State, key: Key)
    requires Reaches(max, s, run, r) && (forall k :: 0 <= k < |run| ==> !BeginsFor(run[k], key))
    requires forall i :: i in s.triggers ==> s.triggers[i].key != key
    ensures forall j :: Of(r.shadows, j, key) ==> Of(s.shadows, j, key)
    decreases |run|
  {
    if run != [] {
      var s' := Do(max, s, run[0]);
      assert Reaches(max, s', [], s');
      assert !BeginsFor(run[0], key);
      NoNewCalls(max, s, [run[0]], s', key);
      ShadowsFrom(max, s, run[0], key);
      NoNewShadows(max, s', run[1..], r, key);
    }
  }

  lemma ShadowsFrom(max: nat, s: State, step: Step, key: Key)
    requires Enabled(max, s, step) && !Launches(s, step, key)
    ensures forall j :: Of(Do(max, s, step).shadows, j, key) ==> Of(s.shadows, j, key)
  {
    match step
    case ShadowStep(j, x) => OldShadows(max, s, j, x, key);
    case TriggerStep(t) => OldShadowsTrigger(s, t, key);
    case Modify(_, _) =>
    case CacheStep(c) => assert DoCache(s, c).shadows == s.shadows;
    case Delete(_) =>
  }

  lemma OldShadows(max: nat, s: State, j: ShadowId, x: ShadowStep, key: Key)
    requires ShadowEnabled(max, s, j, x)
    ensures forall h :: Of(DoShadow(max, s, j, x).shadows, h, key) ==> Of(s.shadows, h, key)
  {
  }

  lemma OldShadowsTrigger(s: State, t: TriggerStep, key: Key)
    requires TriggerEnabled(s, t) && !Launches(s, TriggerStep(t), key)
    ensures forall h :: Of(DoTrigger(s, t).shadows, h, key) ==> Of(s.shadows, h, key)
  {
  }

  /** A call for a key that the cache accepts ends at once: in every continuation without another call
      for the key, all calls for it that are under way were so before, and if there were none, no shadow
      of the key appears. */
  lemma AcceptedStartsNothing(max: nat, s: State, i: TriggerId, key: Key, path: Path, rm: Removal, run: seq<Step>, r: State)
    requires Accepts(s, key, Some(path)) && TriggerEnabled(s, Begin(i, key, path, rm))
    requires Reaches(max, DoTrigger(s, Begin(i, key, path, rm)), run, r)
    requires forall k :: 0 <= k < |run| ==> !BeginsFor(run[k], key)
    ensures forall h :: h in r.triggers && r.triggers[h].key == key ==> h in s.triggers && s.triggers[h].key == key
    ensures (forall h :: h in s.triggers ==> s.triggers[h].key != key) ==>
              forall j :: Of(r.shadows, j, key) ==> Of(s.shadows, j, key)
  {
    var s' := DoTrigger(s, Begin(i, key, path, rm));
    NoNewCalls(max, s', run, r, key);
    if forall h :: h in s.triggers ==> s.triggers[h].key != key {
      NoNewShadows(max, s', run, r, key);
    }
  }

  // ------------------------------------------------------------------- without the race

  predicate BeforeLaunch(s: State, i: TriggerId, key: Key) {
    i in s.triggers && s.triggers[i].key == key && !s.triggers[i].pc.Spawned?
  }

  /** No shadow publishes the key while a call for it is between its cache check and its launch. */
  ghost predicate Unraced(max: nat, s: State, run: seq<Step>, key: Key)
    decreases |run|
  {
    run != [] ==>
      && (Publishes(s, run[0], key) ==> forall i :: !BeforeLaunch(s, i, key))
      && Enabled(max, s, run[0]) && Unraced(max, Do(max, s, run[0]), run[1..], key)
  }

  ghost predicate CallsMissed(s: State, key: Key) {
    key !in s.recached && forall i :: BeforeLaunch(s, i, key) ==> key !in s.snapshots
  }

  lemma MissedTrigger(s: State, t: TriggerStep, key: Key)
    requires CallsMissed(s, key) && TriggerEnabled(s, t)
    ensures CallsMissed(DoTrigger(s, t), key)
  {
    var s' := DoTrigger(s, t);
    forall i | BeforeLaunch(s', i, key) ensures key !in s'.snapshots {
      assert (t.Begin? && t.i == i) || BeforeLaunch(s, i, key);
    }
    if t.Launch? && s.triggers[t.i].key == key {
      assert BeforeLaunch(s, t.i, key);
    }
  }

  lemma MissedStep(max: nat, s: State, step: Step, key: Key)
    requires CallsMissed(s, key) && Enabled(max, s, step)
    requires Publishes(s, step, key) ==> forall i :: !BeforeLaunch(s, i, key)
    ensures CallsMissed(Do(max, s, step), key)
  {
    if step.TriggerStep? {
      MissedTrigger(s, step.t, key);
    } else {
      CallsUnchanged(max, s, step);
      MissedOther(max, s, step, Do(max, s, step), key);
    }
  }

  lemma CallsUnchanged(max: nat, s: State, step: Step)
    requires Enabled(max, s, step) && !step.TriggerStep?
    ensures Do(max, s, step).triggers == s.triggers && Do(max, s, step).recached == s.recached
  {
    if step.ShadowStep? {
      ShadowsKeepCalls(max, s, step.j, step.x);
    }
  }

  lemma MissedOther(max: nat, s: State, step: Step, s': State, key: Key)
    requires CallsMissed(s, key) && Enabled(max, s, step) && s' == Do(max, s, step)
    requires Publishes(s, step, key) ==> forall i :: !BeforeLaunch(s, i, key)
    requires s'.triggers == s.triggers && s'.recached == s.recached
    ensures CallsMissed(s', key)
  {
    forall i | BeforeLaunch(s', i, key) ensures key !in s'.snapshots {
      assert BeforeLaunch(s, i, key);
      AbsentStays(max, s, step, key);
    }
  }

  lemma {:induction false} MissedRun(max: nat, s: State, run: seq<Step>, r: State, key: Key)
    requires CallsMissed(s, key) && Reaches(max, s, run, r) && Unraced(max, s, run, key)
    ensures CallsMissed(r, key)
    decreases |run|
  {
    if run != [] {
      MissedStep(max, s, run[0], key);
      MissedRun(max, Do(max, s, run[0]), run[1..], r, key);
    }
  }

  /** If the calls for a key come one after the other and no shadow publishes it while such a call is
      between its cache check and its launch, then no shadow is ever launched for the key while it is
      cached or in production, and whenever it is cached, its complete directory is on disk. */
  lemma UnracedEntries(max: nat, run: seq<Step>, s: State, key: Key)
    requires Reaches(max, InitialState(), run, s)
    requires SerialFor(max, InitialState(), run, key) && Unraced(max, InitialState(), run, key)
    ensures key !in s.recached && key !in s.doubled
    ensures key in s.snapshots ==> key in s.dirs && s.dirs[key].Complete?
    ensures forall i, j :: TriggerEnabled(s, Launch(i, j)) && s.triggers[i].key == key ==>
              key !in s.snapshots && !InProduction(s, key)
  {
    MissedRun(max, InitialState(), run, s, key);
    OneShadowPerKey(max, run, s, key);
    CleanKey(max, s, key);
    assert forall i, j :: TriggerEnabled(s, Launch(i, j)) && s.triggers[i].key == key ==> BeforeLaunch(s, i, key);
  }

  // ---------------------------------------------------------- fresh snapshots

  /** In every run, for a clean key: a lookup that is accepted with a path, readable metadata and a
      recorded mtime finds a snapshot built from an image with the current mtime if and only if the
      mtime read for that snapshot was the one of its hot-plug. */
  lemma AcceptedIsFresh(max: nat, s: State, key: Key, path: Path)
    requires Reachable(max, s) && Clean(s, key)
    requires Accepts(s, key, Some(path)) && path in s.images && s.snapshots[key].mtime.Some?
    ensures key in s.dirs && (s.dirs[key] == Complete(s.images[path]) <==> key !in s.misread)
  {
    ReachableInv(max, s, key);
  }

  /** An entry without a recorded mtime is accepted for every image; one with a recorded mtime is refused
      exactly when the image can be read and has another. */
  lemma AcceptedExact(s: State, key: Key, path: Path)
    requires key in s.snapshots
    ensures s.snapshots[key].mtime.None? ==> Accepts(s, key, Some(path)) && Accepts(s, key, None)
    ensures s.snapshots[key].mtime.Some? ==>
              (Accepts(s, key, Some(path)) <==> (path in s.images ==> s.images[path] == s.snapshots[key].mtime.value))
  {
  }

  /** Reads that go wrong: the image was written between the hot-plug and the read. */
  lemma UntouchedReads(max: nat, s: State, j: ShadowId)
    requires Reachable(max, s) && ShadowEnabled(max, s, j, ReadMtime) && !s.shadows[j].touched
    ensures s.shadows[j].key !in DoShadow(max, s, j, ReadMtime).misread
  {
    ReachableInv(max, s, s.shadows[j].key);
  }

  /** Only a write to its image touches a shadow. */
  lemma {:induction false} TouchedByWrite(max: nat, s: State, run: seq<Step>, r: State, j: ShadowId)
    requires Reaches(max, s, run, r) && j in r.shadows && r.shadows[j].touched
    requires forall k :: 0 <= k < |run| ==> !(run[k].Modify? && run[k].path == r.shadows[j].path)
    ensures j in s.shadows && s.shadows[j].touched && s.shadows[j].path == r.shadows[j].path
    decreases |run|
  {
    if run != [] {
      assert !(run[0].Modify? && run[0].path == r.shadows[j].path);
      TouchedByWrite(max, Do(max, s, run[0]), run[1..], r, j);
      TouchStep(max, s, run[0], j);
    }
  }

  lemma TouchStep(max: nat, s: State, step: Step, j: ShadowId)
    requires Enabled(max, s, step) && j in Do(max, s, step).shadows && Do(max, s, step).shadows[j].touched
    requires !(step.Modify? && step.path == Do(max, s, step).shadows[j].path)
    ensures j in s.shadows && s.shadows[j].touched && s.shadows[j].path == Do(max, s, step).shadows[j].path
  {
    match step
    case ShadowStep(i, x) => TouchShadow(max, s, i, x, j);
    case TriggerStep(t) => TouchTrigger(s, t, j);
    case CacheStep(c) => assert DoCache(s, c).shadows == s.shadows;
    case Modify(_, _) =>
    case Delete(_) =>
  }

  lemma TouchShadow(max: nat, s: State, i: ShadowId, x: ShadowStep, j: ShadowId)
    requires ShadowEnabled(max, s, i, x) && j in DoShadow(max, s, i, x).shadows
    ensures j in s.shadows && s.shadows[j].touched == DoShadow(max, s, i, x).shadows[j].touched
    ensures s.shadows[j].path == DoShadow(max, s, i, x).shadows[j].path
  {
  }

  lemma TouchTrigger(s: State, t: TriggerStep, j: ShadowId)
    requires TriggerEnabled(s, t) && j in DoTrigger(s, t).shadows && DoTrigger(s, t).shadows[j].touched
    ensures j in s.shadows && s.shadows[j] == DoTrigger(s, t).shadows[j]
  {
  }

  /** The step launches a shadow for this key. */
  predicate Launches(s: State, step: Step, key: Key) {
    && step.TriggerStep? && step.t.Launch?
    && step.t.i in s.triggers && s.triggers[step.t.i].key == key
  }

  /** A run from `s` to `r` without a launch for the key; anything else may happen. */
  ghost predicate QuietRun(max: nat, s: State, run: seq<Step>, r: State, key: Key)
    decreases |run|
  {
    if run == [] then r == s
    else Enabled(max, s, run[0]) && !Launches(s, run[0], key) && QuietRun(max, Do(max, s, run[0]), run[1..], r, key)
  }

  lemma QuietClean(max: nat, s: State, step: Step, key: Key)
    requires Enabled(max, s, step) && !Launches(s, step, key)
    ensures Clean(Do(max, s, step), key) <==> Clean(s, key)
    ensures forall j :: Produces(Do(max, s, step).shadows, j, key) ==> Produces(s.shadows, j, key)
  {
    match step
    case TriggerStep(t) => QuietTrigger(s, t, key);
    case ShadowStep(j, x) => QuietShadow(max, s, j, x, key);
    case Modify(_, _) =>
    case Delete(_) =>
    case CacheStep(_) =>
  }

  lemma QuietTrigger(s: State, t: TriggerStep, key: Key)
    requires TriggerEnabled(s, t) && !Launches(s, TriggerStep(t), key)
    ensures Clean(DoTrigger(s, t), key) <==> Clean(s, key)
    ensures forall j :: Produces(DoTrigger(s, t).shadows, j, key) ==> Produces(s.shadows, j, key)
  {
  }

  lemma QuietShadow(max: nat, s: State, j: ShadowId, x: ShadowStep, key: Key)
    requires ShadowEnabled(max, s, j, x)
    ensures Clean(DoShadow(max, s, j, x), key) <==> Clean(s, key)
    ensures forall h :: Produces(DoShadow(max, s, j, x).shadows, h, key) ==> Produces(s.shadows, h, key)
  {
  }

  /** Everything there is of the key came from shadow `j`, built from `built` and stamped with `mtime`. */
  ghost predicate FromRead(s: State, key: Key, j: ShadowId, built: nat, mtime: nat) {
    && Clean(s, key) && KeyInv(s, key)
    && (forall i :: Produces(s.shadows, i, key) ==>
          i == j && s.shadows[i].built == built && s.shadows[i].pc == Stamped(Some(mtime)))
    && (key in s.snapshots ==> s.snapshots[key].mtime == Some(mtime) && key in s.dirs && s.dirs[key] == Complete(built))
  }

  lemma FromReadShadow(max: nat, s: State, i: ShadowId, x: ShadowStep, key: Key, j: ShadowId, built: nat, mtime: nat)
    requires FromRead(s, key, j, built, mtime) && ShadowEnabled(max, s, i, x) && KeyInv(DoShadow(max, s, i, x), key)
    ensures FromRead(DoShadow(max, s, i, x), key, j, built, mtime)
  {
    QuietShadow(max, s, i, x, key);
    var s' := DoShadow(max, s, i, x);
    if s.shadows[i].key == key && !x.RemoveHandle? {
      assert Produces(s.shadows, i, key);
    }
    forall h | Produces(s'.shadows, h, key) ensures s'.shadows[h] == s.shadows[h] {
      assert Produces(s.shadows, h, key);
    }
  }

  lemma FromReadTrigger(s: State, t: TriggerStep, key: Key, j: ShadowId, built: nat, mtime: nat)
    requires FromRead(s, key, j, built, mtime) && TriggerEnabled(s, t) && !Launches(s, TriggerStep(t), key)
    requires KeyInv(DoTrigger(s, t), key)
    ensures FromRead(DoTrigger(s, t), key, j, built, mtime)
  {
    QuietTrigger(s, t, key);
    FromReadOther(s, DoTrigger(s, t), key, j, built, mtime);
  }

  lemma FromReadStep(max: nat, s: State, step: Step, key: Key, j: ShadowId, built: nat, mtime: nat)
    requires FromRead(s, key, j, built, mtime) && Enabled(max, s, step) && !Launches(s, step, key)
    ensures FromRead(Do(max, s, step), key, j, built, mtime)
  {
    StepKeeps(max, s, step, key);
    QuietClean(max, s, step, key);
    match step
    case ShadowStep(i, x) => FromReadShadow(max, s, i, x, key, j, built, mtime);
    case Modify(path, _) =>
      forall i | Produces(Touched(s.shadows, path), i, key) ensures Touched(s.shadows, path)[i] == s.shadows[i] {
        assert Produces(s.shadows, i, key);
      }
    case TriggerStep(t) => FromReadTrigger(s, t, key, j, built, mtime);
    case CacheStep(_) => FromReadOther(s, Do(max, s, step), key, j, built, mtime);
    case Delete(_) =>
  }

  lemma FromReadOther(s: State, s': State, key: Key, j: ShadowId, built: nat, mtime: nat)
    requires FromRead(s, key, j, built, mtime) && Clean(s', key) && KeyInv(s', key)
    requires forall i :: Produces(s'.shadows, i, key) ==> Produces(s.shadows, i, key) && s'.shadows[i] == s.shadows[i]
    requires key in s'.snapshots ==> key in s.snapshots && s'.snapshots[key].mtime == s.snapshots[key].mtime
                                     && key in s.dirs && key in s'.dirs && s'.dirs[key] == s.dirs[key]
    ensures FromRead(s', key, j, built, mtime)
  {
  }

  lemma {:induction false} FromReadRun(max: nat, s: State, run: seq<Step>, r: State, key: Key, j: ShadowId, built: nat, mtime: nat)
    requires FromRead(s, key, j, built, mtime) && QuietRun(max, s, run, r, key)
    ensures FromRead(r, key, j, built, mtime)
    decreases |run|
  {
    if run != [] {
      FromReadStep(max, s, run[0], key, j, built, mtime);
      FromReadRun(max, Do(max, s, run[0]), run[1..], r, key, j, built, mtime);
    }
  }

  /** Decided at the mtime read, for all that follows: whenever, before the next launch for the key, a
      lookup is accepted and the image can be read, the snapshot was built from an image with the
      current mtime if and only if at the read the image had the mtime of the hot-plug. */
  lemma ReadDecides(max: nat, s: State, j: ShadowId, run: seq<Step>, r: State, path: Path)
    requires Reachable(max, s) && ShadowEnabled(max, s, j, ReadMtime) && Clean(s, s.shadows[j].key)
    requires s.shadows[j].path in s.images
    requires QuietRun(max, DoShadow(max, s, j, ReadMtime), run, r, s.shadows[j].key)
    requires Accepts(r, s.shadows[j].key, Some(path)) && path in r.images
    ensures s.shadows[j].key in r.dirs
    ensures r.dirs[s.shadows[j].key] == Complete(r.images[path]) <==> s.images[s.shadows[j].path] == s.shadows[j].built
  {
    var sh := s.shadows[j];
    ReachableInv(max, s, sh.key);
    var s' := DoShadow(max, s, j, ReadMtime);
    ShadowKeeps(max, s, j, ReadMtime, sh.key);
    QuietShadow(max, s, j, ReadMtime, sh.key);
    assert Produces(s.shadows, j, sh.key);
    FromReadRun(max, s', run, r, sh.key, j, sh.built, s.images[sh.path]);
  }

  // ------------------------------------------------------ which launches are safe

  ghost predicate Leads(max: nat, s: State, key: Key, r: State) {
    exists run :: QuietRun(max, s, run, r, key)
  }

  /** Up to the next launch for the key, whatever else happens, a cached key has its directory. */
  ghost predicate SafeUntilNextLaunch(max: nat, s: State, key: Key) {
    forall r :: Leads(max, s, key, r) ==> EntryComplete(r, key)
  }

  lemma {:induction false} QuietSnoc(max: nat, s: State, run: seq<Step>, r: State, key: Key, step: Step)
    requires QuietRun(max, s, run, r, key) && Enabled(max, r, step) && !Launches(r, step, key)
    ensures QuietRun(max, s, run + [step], Do(max, r, step), key)
    decreases |run|
  {
    if run == [] {
      assert (run + [step])[1..] == [];
    } else {
      assert (run + [step])[1..] == run[1..] + [step];
      QuietSnoc(max, Do(max, s, run[0]), run[1..], r, key, step);
    }
  }

  lemma Lead(max: nat, s: State, key: Key, r: State, step: Step) returns (r': State)
    requires Leads(max, s, key, r) && Enabled(max, r, step) && !Launches(r, step, key)
    ensures r' == Do(max, r, step) && Leads(max, s, key, r')
  {
    var run :| QuietRun(max, s, run, r, key);
    QuietSnoc(max, s, run, r, key, step);
    r' := Do(max, r, step);
  }

  /** A shadow at its start for a cached key can reach the point where it overwrites the directory. */
  lemma CachedLaunchBreaks(max: nat, s: State, key: Key, r: State, j: ShadowId)
    requires Leads(max, s, key, r) && Of(r.shadows, j, key) && r.shadows[j].pc.Launched? && key in r.snapshots
    ensures !SafeUntilNextLaunch(max, s, key)
  {
    var r' := Lead(max, s, key, r, Modify(r.shadows[j].path, 0));
    r' := Lead(max, s, key, r', ShadowStep(j, Plug));
    r' := Lead(max, s, key, r', ShadowStep(j, MakeDir));
    r' := Lead(max, s, key, r', ShadowStep(j, StartWriting));
    assert !EntryComplete(r', key);
  }

  function Rank(pc: ShadowPc): nat {
    match pc
    case Launched => 6
    case Plugged => 5
    case DirMade => 4
    case Writing => 3
    case Written => 2
    case Stamped(_) => 1
    case Over => 0
  }

  /** `j` produces the key and `h`, another shadow, is at its start. */
  predicate Pair(r: State, key: Key, j: ShadowId, h: ShadowId) {
    && Produces(r.shadows, j, key) && Of(r.shadows, h, key) && h != j && r.shadows[h].pc.Launched?
  }

  lemma AdvanceBy(max: nat, s: State, key: Key, r: State, j: ShadowId, h: ShadowId, x: ShadowStep) returns (r': State)
    requires Leads(max, s, key, r) && Pair(r, key, j, h) && ShadowEnabled(max, r, j, x)
    requires x.Plug? || x.MakeDir? || x.StartWriting? || x.FinishWriting? || x.ReadMtime?
    ensures Leads(max, s, key, r') && Pair(r', key, j, h) && Rank(r'.shadows[j].pc) < Rank(r.shadows[j].pc)
  {
    r' := Lead(max, s, key, r, ShadowStep(j, x));
  }

  /** The image can be put in place for a hot-plug. */
  lemma ProvideImage(max: nat, s: State, key: Key, r: State, j: ShadowId, h: ShadowId) returns (r': State)
    requires Leads(max, s, key, r) && Pair(r, key, j, h) && r.shadows[j].pc.Launched?
    ensures Leads(max, s, key, r') && Pair(r', key, j, h) && r'.shadows[j] == r.shadows[j] && r.shadows[j].path in r'.images
  {
    r' := Lead(max, s, key, r, Modify(r.shadows[j].path, 0));
  }

  /** A producer can always make its next step, without the other one moving. */
  lemma Advance(max: nat, s: State, key: Key, r: State, j: ShadowId, h: ShadowId) returns (r': State)
    requires Leads(max, s, key, r) && Pair(r, key, j, h) && !r.shadows[j].pc.Stamped?
    ensures Leads(max, s, key, r') && Pair(r', key, j, h) && Rank(r'.shadows[j].pc) < Rank(r.shadows[j].pc)
  {
    match r.shadows[j].pc
    case Launched =>
      r' := ProvideImage(max, s, key, r, j, h);
      r' := AdvanceBy(max, s, key, r', j, h, Plug);
    case Plugged => r' := AdvanceBy(max, s, key, r, j, h, MakeDir);
    case DirMade => r' := AdvanceBy(max, s, key, r, j, h, StartWriting);
    case Writing => r' := AdvanceBy(max, s, key, r, j, h, FinishWriting);
    case Written => r' := AdvanceBy(max, s, key, r, j, h, ReadMtime);
  }

  lemma {:induction false} DoubleLaunchBreaks(max: nat, s: State, key: Key, r: State, j: ShadowId, h: ShadowId)
    requires Leads(max, s, key, r) && Pair(r, key, j, h)
    ensures !SafeUntilNextLaunch(max, s, key)
    decreases Rank(r.shadows[j].pc)
  {
    if r.shadows[j].pc.Stamped? {
      var evicted := SomeEviction(r.snapshots, Evictions(|r.snapshots|, max));
      var r' := Lead(max, s, key, r, ShadowStep(j, Publish(evicted, {})));
      CachedLaunchBreaks(max, s, key, r', h);
    } else {
      var r' := Advance(max, s, key, r, j, h);
      DoubleLaunchBreaks(max, s, key, r', j, h);
    }
  }

  lemma {:induction false} QuietRunSafe(max: nat, s: State, run: seq<Step>, r: State, key: Key)
    requires KeyInv(s, key) && Clean(s, key) && QuietRun(max, s, run, r, key)
    ensures EntryComplete(r, key)
    decreases |run|
  {
    if run != [] {
      StepKeeps(max, s, run[0], key);
      QuietClean(max, s, run[0], key);
      QuietRunSafe(max, Do(max, s, run[0]), run[1..], r, key);
    }
  }

  /** Exactly the harmless launches: the key stays complete up to its next launch, in every
      continuation, if and only if at this launch it is neither cached nor in production. */
  lemma LaunchSafety(max: nat, s: State, i: TriggerId, j: ShadowId)
    requires Reachable(max, s) && TriggerEnabled(s, Launch(i, j)) && Clean(s, s.triggers[i].key)
    ensures SafeUntilNextLaunch(max, DoTrigger(s, Launch(i, j)), s.triggers[i].key)
            <==> s.triggers[i].key !in s.snapshots && !InProduction(s, s.triggers[i].key)
  {
    var key, s' := s.triggers[i].key, DoTrigger(s, Launch(i, j));
    assert QuietRun(max, s', [], s', key);
    assert Leads(max, s', key, s');
    if key in s.snapshots {
      CachedLaunchBreaks(max, s', key, s', j);
    } else if InProduction(s, key) {
      var h :| Produces(s.shadows, h, key);
      DoubleLaunchBreaks(max, s', key, s', h, j);
    } else {
      ReachableInv(max, s, key);
      TriggerKeeps(s, Launch(i, j), key);
      forall r | Leads(max, s', key, r) ensures EntryComplete(r, key) {
        var run :| QuietRun(max, s', run, r, key);
        QuietRunSafe(max, s', run, r, key);
      }
    }
  }

  // ------------------------------------------------------------ warm restores

  /** Nothing produces the key; it is cached, or there is no complete directory of it. */
  ghost predicate AtRest(s: State, key: Key) {
    && Clean(s, key) && KeyInv(s, key)
    && (forall j :: !Produces(s.shadows, j, key))
    && (key in s.snapshots || (key in s.dirs ==> s.dirs[key].Partial?))
  }

  lemma AtRestShadow(max: nat, s: State, j: ShadowId, x: ShadowStep, key: Key)
    requires AtRest(s, key) && ShadowEnabled(max, s, j, x) && KeyInv(DoShadow(max, s, j, x), key)
    ensures AtRest(DoShadow(max, s, j, x), key)
  {
    QuietShadow(max, s, j, x, key);
    assert !Produces(s.shadows, j, key);
  }

  lemma AtRestStep(max: nat, s: State, step: Step, key: Key)
    requires AtRest(s, key) && Enabled(max, s, step) && !Launches(s, step, key)
    ensures AtRest(Do(max, s, step), key)
  {
    StepKeeps(max, s, step, key);
    QuietClean(max, s, step, key);
    if step.ShadowStep? {
      AtRestShadow(max, s, step.j, step.x, key);
    }
  }

  lemma {:induction false} AtRestRun(max: nat, s: State, run: seq<Step>, r: State, key: Key)
    requires AtRest(s, key) && QuietRun(max, s, run, r, key)
    ensures AtRest(r, key)
    decreases |run|
  {
    if run != [] {
      AtRestStep(max, s, run[0], key);
      AtRestRun(max, Do(max, s, run[0]), run[1..], r, key);
    }
  }

  /** A warm restore reads the directory after the lock is dropped. Before the next launch for the
      key, it finds a complete directory if and only if the key has not been evicted or invalidated
      in the meantime. */
  lemma RestoreExact(max: nat, s: State, i: RestoreId, key: Key, run: seq<Step>, r: State)
    requires Reachable(max, s) && Clean(s, key) && i !in s.restorers && key in s.snapshots
    requires QuietRun(max, DoCache(s, Open(i, key)), run, r, key)
    ensures key in r.dirs && r.dirs[key].Complete? <==> key in r.snapshots
  {
    ReachableInv(max, s, key);
    CacheKeeps(s, Open(i, key), key);
    AtRestRun(max, DoCache(s, Open(i, key)), run, r, key);
  }

  // ----------------------------------------------------------------- handles

  ghost function ShadowKeys(s: State): set<Key> {
    set j | j in s.shadows :: s.shadows[j].key
  }

  ghost predicate HandlesCovered(s: State) {
    s.handles <= ShadowKeys(s)
  }

  ghost predicate AlwaysCovered(max: nat, s: State, run: seq<Step>)
    decreases |run|
  {
    && HandlesCovered(s)
    && (run != [] ==> Enabled(max, s, run[0]) && AlwaysCovered(max, Do(max, s, run[0]), run[1..]))
  }

  /** Every handle of the run is inserted while a shadow of its key is still there. */
  ghost predicate TimelyInserts(max: nat, s: State, run: seq<Step>)
    decreases |run|
  {
    run != [] ==>
      && Enabled(max, s, run[0])
      && (run[0].TriggerStep? && run[0].t.InsertHandle? ==> s.triggers[run[0].t.i].key in ShadowKeys(s))
      && TimelyInserts(max, Do(max, s, run[0]), run[1..])
  }

  lemma CoveredShadow(max: nat, s: State, j: ShadowId, x: ShadowStep)
    requires HandlesCovered(s) && ShadowEnabled(max, s, j, x)
    ensures HandlesCovered(DoShadow(max, s, j, x))
  {
    var s' := DoShadow(max, s, j, x);
    forall k | k in s'.handles ensures k in ShadowKeys(s') {
      assert k in ShadowKeys(s);
      var h :| h in s.shadows && s.shadows[h].key == k;
      assert h in s'.shadows && s'.shadows[h].key == k;
    }
  }

  lemma CoveredStep(max: nat, s: State, step: Step)
    requires HandlesCovered(s) && Enabled(max, s, step)
    ensures HandlesCovered(Do(max, s, step)) <==>
            (step.TriggerStep? && step.t.InsertHandle? ==> s.triggers[step.t.i].key in ShadowKeys(s))
  {
    var s' := Do(max, s, step);
    match step
    case ShadowStep(j, x) => CoveredShadow(max, s, j, x);
    case TriggerStep(t) => CoveredTrigger(s, t);
    case Modify(path, _) => TouchedKeys(s, s', path);
    case CacheStep(_) => assert ShadowKeys(s') == ShadowKeys(s);
    case Delete(_) => assert ShadowKeys(s') == ShadowKeys(s);
  }

  lemma TouchedKeys(s: State, s': State, path: Path)
    requires s'.shadows == Touched(s.shadows, path)
    ensures ShadowKeys(s') == ShadowKeys(s)
  {
    forall k ensures k in ShadowKeys(s') <==> k in ShadowKeys(s) {
      if k in ShadowKeys(s) {
        var j :| j in s.shadows && s.shadows[j].key == k;
        assert j in s'.shadows && s'.shadows[j].key == k;
      }
    }
  }

  lemma CoveredTrigger(s: State, t: TriggerStep)
    requires HandlesCovered(s) && TriggerEnabled(s, t)
    ensures HandlesCovered(DoTrigger(s, t)) <==> (t.InsertHandle? ==> s.triggers[t.i].key in ShadowKeys(s))
  {
    var s' := DoTrigger(s, t);
    if t.Launch? {
      assert forall h :: h in s.shadows ==> h in s'.shadows && s'.shadows[h] == s.shadows[h];
    } else {
      assert ShadowKeys(s') == ShadowKeys(s);
    }
  }

  /** Exactly when no handle is ever orphaned: every registered key has a shadow in every state of a
      run if and only if each of its handles is inserted while a shadow of its key is still there. */
  lemma {:induction false} HandlesExact(max: nat, s: State, run: seq<Step>, r: State)
    requires HandlesCovered(s) && Reaches(max, s, run, r)
    ensures AlwaysCovered(max, s, run) <==> TimelyInserts(max, s, run)
    decreases |run|
  {
    if run != [] {
      var s' := Do(max, s, run[0]);
      assert Reaches(max, s', run[1..], r);
      CoveredStep(max, s, run[0]);
      if HandlesCovered(s') {
        HandlesExact(max, s', run[1..], r);
      }
    }
  }

  /** The key's handle is registered although no shadow for it exists or is about to. */
  ghost predicate Stuck(s: State, key: Key) {
    && key in s.handles
    && (forall j :: !Of(s.shadows, j, key))
    && (forall i :: i in s.triggers && s.triggers[i].key == key ==> s.triggers[i].pc.Missed?)
  }

  /** An insert leaves its key stuck if and only if at that moment no shadow has the key and no other
      call for it is past its handle check. */
  lemma StuckExact(s: State, i: TriggerId)
    requires TriggerEnabled(s, InsertHandle(i))
    ensures Stuck(DoTrigger(s, InsertHandle(i)), s.triggers[i].key) <==>
            && (forall j :: !Of(s.shadows, j, s.triggers[i].key))
            && (forall h :: h in s.triggers && h != i && s.triggers[h].key == s.triggers[i].key ==> s.triggers[h].pc.Missed?)
  {
    var s' := DoTrigger(s, InsertHandle(i));
    if Stuck(s', s.triggers[i].key) {
      forall h | h in s.triggers && h != i && s.triggers[h].key == s.triggers[i].key ensures s.triggers[h].pc.Missed? {
        assert s'.triggers[h] == s.triggers[h];
      }
    }
  }

  lemma StuckTrigger(s: State, key: Key, t: TriggerStep)
    requires Stuck(s, key) && TriggerEnabled(s, t)
    ensures Stuck(DoTrigger(s, t), key)
  {
    var s' := DoTrigger(s, t);
    assert t.Launch? || t.InsertHandle? ==> s.triggers[t.i].key != key;
    forall j ensures !Of(s'.shadows, j, key) {
      assert !Of(s.shadows, j, key);
    }
    forall i | i in s'.triggers && s'.triggers[i].key == key ensures s'.triggers[i].pc.Missed? {
      assert i in s.triggers ==> s.triggers[i].key == s'.triggers[i].key;
    }
  }

  lemma StuckShadow(max: nat, s: State, key: Key, j: ShadowId, x: ShadowStep)
    requires Stuck(s, key) && ShadowEnabled(max, s, j, x)
    ensures Stuck(DoShadow(max, s, j, x), key)
  {
    var s' := DoShadow(max, s, j, x);
    assert forall i :: Of(s'.shadows, i, key) ==> Of(s.shadows, i, key);
    assert !Of(s.shadows, j, key);
    assert s'.triggers == s.triggers;
  }

  lemma StuckStep(max: nat, s: State, key: Key, step: Step)
    requires Stuck(s, key) && Enabled(max, s, step)
    ensures Stuck(Do(max, s, step), key)
  {
    match step
    case TriggerStep(t) => StuckTrigger(s, key, t);
    case ShadowStep(j, x) => StuckShadow(max, s, key, j, x);
    case Modify(path, _) => assert forall i :: Of(Touched(s.shadows, path), i, key) ==> Of(s.shadows, i, key);
    case CacheStep(_) =>
    case Delete(_) =>
  }

  /** From such a state no shadow for the key ever runs again. */
  lemma {:induction false} StuckForever(max: nat, s: State, key: Key, run: seq<Step>, r: State)
    requires Stuck(s, key) && Reaches(max, s, run, r)
    ensures Stuck(r, key)
    decreases |run|
  {
    if run != [] {
      StuckStep(max, s, key, run[0]);
      StuckForever(max, Do(max, s, run[0]), key, run[1..], r);
    }
  }
}
