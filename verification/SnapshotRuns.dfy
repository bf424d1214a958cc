/** Runs of the snapshot cache in which something goes wrong. In all but `DoubleRun` there is never
    more than one shadow and one trigger call at a time. */
module SnapshotRuns {
  import opened Basics
  import opened SnapshotCache
  import opened SnapshotMachine
  import opened SnapshotTheorems

  /** At most one shadow exists and at most one trigger call is under way in every state of the run. */
  ghost predicate Serialised(max: nat, s: State, run: seq<Step>)
    decreases |run|
  {
    && |s.shadows| <= 1 && |s.triggers| <= 1
    && (run != [] ==> Enabled(max, s, run[0]) && Serialised(max, Do(max, s, run[0]), run[1..]))
  }

  ghost predicate SeriallyReachable(max: nat, s: State) {
    exists run :: Reaches(max, InitialState(), run, s) && Serialised(max, InitialState(), run)
  }

  lemma {:induction false} Snoc(max: nat, s: State, run: seq<Step>, r: State, step: Step)
    requires Reaches(max, s, run, r) && Enabled(max, r, step)
    ensures Reaches(max, s, run + [step], Do(max, r, step))
    ensures Serialised(max, s, run) && |Do(max, r, step).shadows| <= 1 && |Do(max, r, step).triggers| <= 1
            ==> Serialised(max, s, run + [step])
    decreases |run|
  {
    if run == [] {
      assert (run + [step])[1..] == [];
    } else {
      assert (run + [step])[1..] == run[1..] + [step];
      Snoc(max, Do(max, s, run[0]), run[1..], r, step);
    }
  }

  lemma Next(s: State, step: Step) returns (r: State)
    requires SeriallyReachable(1, s) && Enabled(1, s, step)
    requires |Do(1, s, step).shadows| <= 1 && |Do(1, s, step).triggers| <= 1
    ensures r == Do(1, s, step) && SeriallyReachable(1, r)
  {
    var run :| Reaches(1, InitialState(), run, s) && Serialised(1, InitialState(), run);
    Snoc(1, InitialState(), run, s, step);
    r := Do(1, s, step);
  }

  lemma Then(s: State, step: Step) returns (r: State)
    requires Reachable(1, s) && Enabled(1, s, step)
    ensures r == Do(1, s, step) && Reachable(1, r)
  {
    var run :| Reaches(1, InitialState(), run, s);
    Snoc(1, InitialState(), run, s, step);
    r := Do(1, s, step);
  }

  lemma WriteImage(s: State, path: Path, mtime: nat) returns (r: State)
    requires SeriallyReachable(1, s) && |s.shadows| <= 1 && |s.triggers| <= 1
    ensures SeriallyReachable(1, r) && |r.shadows| <= 1
    ensures r == s.(images := s.images[path := mtime], shadows := Touched(s.shadows, path))
  {
    assert Touched(s.shadows, path).Keys == s.shadows.Keys;
    assert |Touched(s.shadows, path)| == |Touched(s.shadows, path).Keys| && |s.shadows| == |s.shadows.Keys|;
    r := Next(s, Modify(path, mtime));
  }

  lemma FirstCall() returns (s: State)
    ensures SeriallyReachable(1, s)
    ensures s == State(map[], map[], map["p" := 5], map[], {}, map[0 := Trigger("k", "p", Missed)], map[], 0, {}, {}, {})
  {
    s := InitialState();
    assert Reaches(1, s, [], s) && Serialised(1, s, []);
    s := Next(s, Modify("p", 5));
    assert s.shadows == map[];
    s := Next(s, TriggerStep(Begin(0, "k", "p", Gone)));
  }

  /** The first shadow is running, its handle is not yet inserted. */
  lemma FirstLaunch() returns (s: State)
    ensures SeriallyReachable(1, s)
    ensures s == State(map[], map[], map["p" := 5], map[0 := Shadow("k", "p", Launched, 0, false)], {},
                       map[0 := Trigger("k", "p", Spawned)], map[], 0, {}, {}, {})
  {
    s := FirstCall();
    s := Next(s, TriggerStep(CheckHandles(0)));
    s := Next(s, TriggerStep(Launch(0, 0)));
  }

  lemma FirstShadow() returns (s: State)
    ensures SeriallyReachable(1, s)
    ensures s == State(map[], map[], map["p" := 5], map[0 := Shadow("k", "p", Launched, 0, false)], {"k"},
                       map[], map[], 0, {}, {}, {})
  {
    s := FirstLaunch();
    s := Next(s, TriggerStep(InsertHandle(0)));
    assert s.triggers == map[];
  }

  lemma FirstWritten() returns (s: State)
    ensures SeriallyReachable(1, s)
    ensures s == State(map[], map["k" := Complete(5)], map["p" := 5], map[0 := Shadow("k", "p", Written, 5, false)],
                       {"k"}, map[], map[], 0, {}, {}, {})
  {
    s := FirstShadow();
    s := Next(s, ShadowStep(0, Plug));
    s := Next(s, ShadowStep(0, MakeDir));
    s := Next(s, ShadowStep(0, StartWriting));
    s := Next(s, ShadowStep(0, FinishWriting));
  }

  lemma FirstStamped() returns (s: State)
    ensures SeriallyReachable(1, s)
    ensures s == State(map[], map["k" := Complete(5)], map["p" := 5], map[0 := Shadow("k", "p", Stamped(Some(5)), 5, false)],
                       {"k"}, map[], map[], 0, {}, {}, {})
  {
    s := FirstWritten();
    s := Next(s, ShadowStep(0, ReadMtime));
    assert s.misread == {};
  }

  /** Publication into an empty cache. */
  lemma PublishFirst(s: State, j: ShadowId) returns (r: State)
    requires SeriallyReachable(1, s) && s.snapshots == map[] && j in s.shadows && s.shadows[j].pc.Stamped?
    requires |s.shadows| <= 1 && |s.triggers| <= 1
    ensures SeriallyReachable(1, r)
    ensures var sh := s.shadows[j];
            r == s.(snapshots := map[sh.key := Entry(sh.key, s.clock + 1, sh.pc.mtime)],
                    shadows := s.shadows[j := sh.(pc := Over)], clock := s.clock + 1)
  {
    assert s.snapshots - {} == s.snapshots;
    assert s.shadows[j := s.shadows[j].(pc := Over)].Keys == s.shadows.Keys;
    r := Next(s, ShadowStep(j, Publish({}, {})));
    assert r.dirs == s.dirs;
  }

  const CACHED: State :=
    State(map["k" := Entry("k", 1, Some(5))], map["k" := Complete(5)], map["p" := 5],
          map[0 := Shadow("k", "p", Over, 5, false)], {"k"}, map[], map[], 1, {}, {}, {})

  /** What publishing makes of the state before it. */
  lemma StampedToCached(s: State)
    requires s == State(map[], map["k" := Complete(5)], map["p" := 5], map[0 := Shadow("k", "p", Stamped(Some(5)), 5, false)],
                        {"k"}, map[], map[], 0, {}, {}, {})
    ensures s.(snapshots := map["k" := Entry("k", 1, Some(5))], shadows := s.shadows[0 := s.shadows[0].(pc := Over)], clock := 1)
         == CACHED
  {
    assert s.shadows[0 := s.shadows[0].(pc := Over)] == CACHED.shadows;
  }

  lemma FirstCached() returns (s: State)
    ensures SeriallyReachable(1, s) && s == CACHED
  {
    var before := FirstStamped();
    StampedToCached(before);
    s := PublishFirst(before, 0);
  }

  /** A call missed the cache; then the shadow published and ended. */
  lemma RaceMissed() returns (s: State)
    ensures SeriallyReachable(1, s)
    ensures s == CACHED.(shadows := map[], handles := {}, triggers := map[1 := Trigger("k", "p", Missed)])
  {
    s := FirstStamped();
    s := Next(s, TriggerStep(Begin(1, "k", "p", Gone)));
    s := PublishFirst(s, 0);
    s := Next(s, ShadowStep(0, RemoveHandle));
    assert s.shadows == map[] && s.handles == {};
  }

  lemma RaceLaunch() returns (s: State)
    ensures SeriallyReachable(1, s)
    ensures s == CACHED.(shadows := map[1 := Shadow("k", "p", Launched, 0, false)], handles := {},
                         triggers := map[1 := Trigger("k", "p", Spawned)], recached := {"k"})
  {
    s := RaceMissed();
    s := Next(s, TriggerStep(CheckHandles(1)));
    assert forall j :: !Produces(s.shadows, j, "k");
    s := Next(s, TriggerStep(Launch(1, 1)));
  }

  /** With one call and one shadow at a time: a shadow that publishes and ends between another call's
      cache check and its handle check lets that call launch a shadow for a cached key, which then
      overwrites a directory that is in use. */
  lemma RaceRun() returns (s: State)
    ensures SeriallyReachable(1, s) && s.recached == {"k"} && s.doubled == {}
    ensures "k" in s.snapshots && "k" in s.dirs && s.dirs["k"] == Partial
  {
    s := RaceLaunch();
    s := Next(s, ShadowStep(1, Plug));
    s := Next(s, ShadowStep(1, MakeDir));
    s := Next(s, ShadowStep(1, StartWriting));
  }

  /** With two calls for a key at once, both can find no handle, and two shadows produce the key. */
  lemma DoubleRun() returns (s: State)
    ensures Reachable(1, s) && s.doubled == {"k"}
    ensures Produces(s.shadows, 0, "k") && Produces(s.shadows, 1, "k")
  {
    s := FirstCall();
    s := Then(s, TriggerStep(Begin(1, "k", "p", Gone)));
    s := Then(s, TriggerStep(CheckHandles(0)));
    s := Then(s, TriggerStep(CheckHandles(1)));
    s := Then(s, TriggerStep(Launch(0, 0)));
    assert s.doubled == {};
    assert Produces(s.shadows, 0, "k");
    s := Then(s, TriggerStep(Launch(1, 1)));
  }

  /** An image written after the hot-plug and before the mtime read leaves an entry that every lookup
      accepts although it was built from the older image. */
  lemma ModifiedRun() returns (s: State)
    ensures SeriallyReachable(1, s) && Clean(s, "k") && s.misread == {"k"}
    ensures s.images == map["p" := 6] && Accepts(s, "k", Some("p")) && s.snapshots["k"].mtime == Some(6)
    ensures "k" in s.dirs && s.dirs["k"] == Complete(5)
  {
    s := FirstWritten();
    s := WriteImage(s, "p", 6);
    assert s.shadows == map[0 := Shadow("k", "p", Written, 5, true)] && s.images == map["p" := 6];
    s := Next(s, ShadowStep(0, ReadMtime));
    s := PublishFirst(s, 0);
  }

  lemma FirstOpened() returns (s: State)
    ensures SeriallyReachable(1, s)
    ensures s == CACHED.(snapshots := map["k" := Entry("k", 2, Some(5))], clock := 2, restorers := map[0 := "k"])
  {
    s := FirstCached();
    s := Next(s, CacheStep(Open(0, "k")));
  }

  /** A restore that has the directory's name finds it deleted, because a lookup of the changed image
      invalidated the entry before the restore read it. */
  lemma RestoreRun() returns (s: State)
    ensures SeriallyReachable(1, s) && Clean(s, "k")
    ensures s.restorers == map[0 := "k"] && "k" !in s.dirs
  {
    s := FirstOpened();
    s := WriteImage(s, "p", 6);
    s := Next(s, CacheStep(Lookup("k", Some("p"), Gone)));
  }

  /** A shadow that ends before its handle is inserted leaves its key stuck and uncached. */
  lemma StuckRun() returns (s: State)
    ensures SeriallyReachable(1, s) && Stuck(s, "k") && "k" !in s.snapshots
  {
    s := FirstLaunch();
    s := Next(s, ShadowStep(0, Fail));
    s := Next(s, ShadowStep(0, RemoveHandle));
    assert s.shadows == map[];
    s := Next(s, TriggerStep(InsertHandle(0)));
    assert s.triggers == map[];
  }

  /** A shadow that fails after making its directory leaves it behind, partial and uncached. */
  lemma LeftoverRun() returns (s: State)
    ensures SeriallyReachable(1, s) && s.snapshots == map[] && s.shadows == map[] && s.handles == {}
    ensures s.dirs == map["k" := Partial]
  {
    s := FirstShadow();
    s := Next(s, ShadowStep(0, Plug));
    s := Next(s, ShadowStep(0, MakeDir));
    s := Next(s, ShadowStep(0, Fail));
    s := Next(s, ShadowStep(0, RemoveHandle));
    assert s.shadows == map[] && s.handles == {};
  }

  /** An image that is missing at the mtime read leaves an entry without a recorded mtime. */
  lemma UnstampedCached() returns (s: State)
    ensures SeriallyReachable(1, s) && Clean(s, "k") && s.images == map[] && |s.shadows| <= 1 && s.triggers == map[]
    ensures s.snapshots == map["k" := Entry("k", 1, None)] && s.dirs == map["k" := Complete(5)]
  {
    s := FirstWritten();
    s := Next(s, Delete("p"));
    assert s.images == map[];
    s := Next(s, ShadowStep(0, ReadMtime));
    assert s.shadows == map[0 := Shadow("k", "p", Stamped(None), 5, false)] && s.misread == {};
    s := PublishFirst(s, 0);
    assert s.shadows == map[0 := Shadow("k", "p", Over, 5, false)];
  }

  /** Such an entry is accepted whatever the image becomes: here one with another mtime than it was built from. */
  lemma UnstampedRun() returns (s: State)
    ensures SeriallyReachable(1, s) && s.images == map["p" := 9] && Accepts(s, "k", Some("p"))
    ensures "k" in s.dirs && s.dirs["k"] == Complete(5)
  {
    s := UnstampedCached();
    s := WriteImage(s, "p", 9);
  }
}
