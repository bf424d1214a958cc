/** Snapshot entries, directories on disk and shadow VMs (crates/daemon/src/shadow.rs) as a step
    machine. Lookups, warm restores, triggers, shadows, evictions and changes of the image files
    interleave freely; every lock section is one step. `trigger_shadow` takes its three lock
    sections and its spawn as separate steps, and a warm restore reads the directory in a step of
    its own, after the lock section that looked it up. */
module SnapshotMachine {
  import opened Basics
  import opened SnapshotCache

  type Path = string
  type ShadowId = nat
  type TriggerId = nat
  type RestoreId = nat

  /** A snapshot directory: being written, or complete and built from an image with this mtime. */
  datatype Dir = Partial | Complete(built: nat)

  datatype ShadowPc =
    | Launched                            // pool.acquire, before the hot-plug
    | Plugged                             // image attached, container warming up
    | DirMade                             // create_dir_all done
    | Writing                             // snapshot_vm and strip_kernel_ip under way
    | Written
    | Stamped(mtime: Option<nat>)         // image mtime read, before the lock section
    | Over                                // published or failed, handle not yet removed

  /** `built` is the image's mtime at the hot-plug; `touched` records (as bookkeeping) that the image
      was written between the hot-plug and the mtime read. */
  datatype Shadow = Shadow(key: Key, path: Path, pc: ShadowPc, built: nat, touched: bool)

  datatype TriggerPc = Missed | Clear | Spawned

  datatype Trigger = Trigger(key: Key, path: Path, pc: TriggerPc)

  datatype State = State(
    snapshots: map<Key, Entry>,
    dirs: map<Key, Dir>,
    images: map<Path, nat>,               // mtime of each existing image
    shadows: map<ShadowId, Shadow>,
    handles: set<Key>,                    // keys of active_shadows
    triggers: map<TriggerId, Trigger>,
    restorers: map<RestoreId, Key>,       // got the directory's name, have not read it yet
    clock: nat,
    // bookkeeping
    recached: set<Key>,                   // a shadow was spawned for the key while it was cached
    doubled: set<Key>,                    // a shadow was spawned for the key while another produced it
    misread: set<Key>)                    // the last mtime read for the key was not that of the hot-plug

  function InitialState(): State {
    State(map[], map[], map[], map[], {}, map[], map[], 0, {}, {}, {})
  }

  predicate Producing(sh: Shadow) {
    !sh.pc.Over?
  }

  /** Between the hot-plug and the mtime read. */
  predicate Exposed(sh: Shadow) {
    sh.pc.Plugged? || sh.pc.DirMade? || sh.pc.Writing? || sh.pc.Written?
  }

  // ----------------------------------------------------------------- steps

  /** `remove_dir_all` is best effort: the directory goes, or some of it stays. */
  datatype Removal = Gone | Remains

  datatype CacheStep =
    | Lookup(key: Key, path: Option<Path>, rm: Removal)       // has_snapshot
    | Open(i: RestoreId, key: Key)                            // get_snapshot_dir
    | Read(i: RestoreId)                                      // prepare_snapshot copies the directory

  datatype TriggerStep =
    | Begin(i: TriggerId, key: Key, path: Path, rm: Removal)
    | CheckHandles(i: TriggerId)
    | Launch(i: TriggerId, j: ShadowId)
    | InsertHandle(i: TriggerId)

  datatype ShadowStep =
    | Plug | MakeDir | StartWriting | FinishWriting | ReadMtime
    | Publish(evicted: set<Key>, left: set<Key>)              // `left`: evicted directories that did not go
    | Fail
    | RemoveHandle

  datatype Step =
    | CacheStep(c: CacheStep)
    | TriggerStep(t: TriggerStep)
    | ShadowStep(j: ShadowId, x: ShadowStep)
    | Modify(path: Path, mtime: nat)
    | Delete(path: Path)

  function CurrentMtime(s: State, path: Option<Path>): Option<nat> {
    if path.Some? && path.value in s.images then Some(s.images[path.value]) else None
  }

  predicate Accepts(s: State, key: Key, path: Option<Path>) {
    key in s.snapshots && !Stale(s.snapshots[key].mtime, CurrentMtime(s, path))
  }

  function AfterRemoval(dirs: map<Key, Dir>, key: Key, rm: Removal): map<Key, Dir> {
    if rm.Gone? || key !in dirs then dirs - {key} else dirs[key := Partial]
  }

  function DoLookup(s: State, key: Key, path: Option<Path>, rm: Removal): State {
    if key in s.snapshots && !Accepts(s, key, path) then
      s.(snapshots := s.snapshots - {key}, dirs := AfterRemoval(s.dirs, key, rm))
    else s
  }

  predicate Produces(shadows: map<ShadowId, Shadow>, j: ShadowId, key: Key) {
    j in shadows && shadows[j].key == key && Producing(shadows[j])
  }

  ghost predicate InProduction(s: State, key: Key) {
    exists j :: Produces(s.shadows, j, key)
  }

  ghost predicate TriggerEnabled(s: State, t: TriggerStep) {
    match t
    case Begin(i, _, _, _) => i !in s.triggers
    case CheckHandles(i) => i in s.triggers && s.triggers[i].pc.Missed?
    case Launch(i, j) => i in s.triggers && s.triggers[i].pc.Clear? && j !in s.shadows
    case InsertHandle(i) => i in s.triggers && s.triggers[i].pc.Spawned?
  }

  ghost function DoTrigger(s: State, t: TriggerStep): State
    requires TriggerEnabled(s, t)
  {
    match t
    case Begin(i, key, path, rm) =>
      if Accepts(s, key, Some(path)) then s
      else
        var s1 := DoLookup(s, key, Some(path), rm);
        s1.(triggers := s1.triggers[i := Trigger(key, path, Missed)])
    case CheckHandles(i) =>
      if s.triggers[i].key in s.handles then s.(triggers := s.triggers - {i})
      else s.(triggers := s.triggers[i := s.triggers[i].(pc := Clear)])
    case Launch(i, j) =>
      var k := s.triggers[i];
      s.(triggers := s.triggers[i := k.(pc := Spawned)],
         shadows := s.shadows[j := Shadow(k.key, k.path, Launched, 0, false)],
         recached := if k.key in s.snapshots then s.recached + {k.key} else s.recached,
         doubled := if InProduction(s, k.key) then s.doubled + {k.key} else s.doubled)
    case InsertHandle(i) =>
      s.(handles := s.handles + {s.triggers[i].key}, triggers := s.triggers - {i})
  }

  ghost predicate ShadowEnabled(max: nat, s: State, j: ShadowId, x: ShadowStep) {
    && j in s.shadows
    && var sh := s.shadows[j];
       match x
       case Plug => sh.pc.Launched? && sh.path in s.images
       case MakeDir => sh.pc.Plugged?
       case StartWriting => sh.pc.DirMade?
       case FinishWriting => sh.pc.Writing?
       case ReadMtime => sh.pc.Written?
       case Publish(evicted, left) =>
         && sh.pc.Stamped? && left <= evicted
         && EvictedFrom(s.snapshots, s.snapshots - evicted, evicted)
         && |evicted| == Evictions(|s.snapshots|, max)
       case Fail => Producing(sh)
       case RemoveHandle => sh.pc.Over?
  }

  function SetShadow(s: State, j: ShadowId, sh: Shadow): State {
    s.(shadows := s.shadows[j := sh])
  }

  /** The eviction loop and the insert, under one lock. */
  function DoPublish(s: State, j: ShadowId, sh: Shadow, evicted: set<Key>, left: set<Key>): State
    requires sh.pc.Stamped?
  {
    SetShadow(s, j, sh.(pc := Over)).(
      snapshots := (s.snapshots - evicted)[sh.key := Entry(sh.key, s.clock + 1, sh.pc.mtime)],
      dirs := map k | k in s.dirs && (k !in evicted || k in left) :: if k in evicted then Partial else s.dirs[k],
      clock := s.clock + 1)
  }

  function DoRead(s: State, j: ShadowId, sh: Shadow): State {
    var current := CurrentMtime(s, Some(sh.path));
    SetShadow(s, j, sh.(pc := Stamped(current))).(
      misread := if current.Some? && current.value != sh.built then s.misread + {sh.key} else s.misread - {sh.key})
  }

  ghost function DoShadow(max: nat, s: State, j: ShadowId, x: ShadowStep): State
    requires ShadowEnabled(max, s, j, x)
  {
    var sh := s.shadows[j];
    match x
    case Plug => SetShadow(s, j, sh.(pc := Plugged, built := s.images[sh.path]))
    case MakeDir =>
      SetShadow(s, j, sh.(pc := DirMade)).(dirs := if sh.key in s.dirs then s.dirs else s.dirs[sh.key := Partial])
    case StartWriting => SetShadow(s, j, sh.(pc := Writing)).(dirs := s.dirs[sh.key := Partial])
    case FinishWriting => SetShadow(s, j, sh.(pc := Written)).(dirs := s.dirs[sh.key := Complete(sh.built)])
    case ReadMtime => DoRead(s, j, sh)
    case Publish(evicted, left) => DoPublish(s, j, sh, evicted, left)
    case Fail => SetShadow(s, j, sh.(pc := Over))
    case RemoveHandle => s.(shadows := s.shadows - {j}, handles := s.handles - {sh.key})
  }

  /** A write to the image touches the shadows that are exposed to it. */
  function Touched(shadows: map<ShadowId, Shadow>, path: Path): map<ShadowId, Shadow> {
    map j | j in shadows ::
      if shadows[j].path == path && Exposed(shadows[j]) then shadows[j].(touched := true) else shadows[j]
  }

  ghost predicate Enabled(max: nat, s: State, step: Step) {
    match step
    case CacheStep(c) => CacheEnabled(s, c)
    case TriggerStep(t) => TriggerEnabled(s, t)
    case ShadowStep(j, x) => ShadowEnabled(max, s, j, x)
    case Modify(_, _) => true
    case Delete(_) => true
  }

  predicate CacheEnabled(s: State, c: CacheStep) {
    match c
    case Lookup(_, _, _) => true
    case Open(i, _) => i !in s.restorers
    case Read(i) => i in s.restorers
  }

  function DoCache(s: State, c: CacheStep): State {
    match c
    case Lookup(key, path, rm) => DoLookup(s, key, path, rm)
    case Open(i, key) =>
      if key in s.snapshots then
        s.(snapshots := s.snapshots[key := s.snapshots[key].(lastUsed := s.clock + 1)], clock := s.clock + 1,
           restorers := s.restorers[i := key])
      else s
    case Read(i) => s.(restorers := s.restorers - {i})
  }

  ghost function Do(max: nat, s: State, step: Step): State
    requires Enabled(max, s, step)
  {
    match step
    case CacheStep(c) => DoCache(s, c)
    case TriggerStep(t) => DoTrigger(s, t)
    case ShadowStep(j, x) => DoShadow(max, s, j, x)
    case Modify(path, mtime) =>
      s.(images := s.images[path := mtime], shadows := Touched(s.shadows, path))
    case Delete(path) => s.(images := s.images - {path})
  }

  ghost predicate Reaches(max: nat, s: State, run: seq<Step>, r: State)
    decreases |run|
  {
    if run == [] then r == s
    else Enabled(max, s, run[0]) && Reaches(max, Do(max, s, run[0]), run[1..], r)
  }

  ghost predicate Reachable(max: nat, s: State) {
    exists run :: Reaches(max, InitialState(), run, s)
  }

  // ------------------------------------------------------------ invariants

  /** No shadow was launched for the key while it was cached or in production. */
  predicate Clean(s: State, key: Key) {
    key !in s.recached && key !in s.doubled
  }

  /** A cached entry has its complete directory, and its recorded mtime is that of the image it was
      built from unless the read went wrong. */
  ghost predicate EntrySound(snapshots: map<Key, Entry>, dirs: map<Key, Dir>, misread: set<Key>, key: Key) {
    key in snapshots ==>
      && key in dirs && dirs[key].Complete?
      && (snapshots[key].mtime.Some? ==> (snapshots[key].mtime.value == dirs[key].built <==> key !in misread))
  }

  /** What the key's producer has done so far. */
  ghost predicate ProducerSound(sh: Shadow, dirs: map<Key, Dir>, misread: set<Key>) {
    && (sh.pc.Written? || sh.pc.Stamped? ==> sh.key in dirs && dirs[sh.key] == Complete(sh.built))
    && (sh.pc.Stamped? && sh.pc.mtime.Some? ==> (sh.pc.mtime.value == sh.built <==> sh.key !in misread))
  }

  /** The key has at most one producer, and none while it is cached. */
  ghost predicate Sound(snapshots: map<Key, Entry>, dirs: map<Key, Dir>, shadows: map<ShadowId, Shadow>,
                        misread: set<Key>, key: Key) {
    && EntrySound(snapshots, dirs, misread, key)
    && (forall j :: Produces(shadows, j, key) ==> key !in snapshots && ProducerSound(shadows[j], dirs, misread))
    && (forall i, j :: Produces(shadows, i, key) && Produces(shadows, j, key) ==> i == j)
  }

  ghost predicate KeyInv(s: State, key: Key) {
    Clean(s, key) ==> Sound(s.snapshots, s.dirs, s.shadows, s.misread, key)
  }

  // ----------------------------------------------------------- preservation

  /** What a step may do to a key it is not about: its entry may go, together with its directory. */
  lemma OtherKey(s: State, s': State, key: Key)
    requires KeyInv(s, key) && (Clean(s', key) ==> Clean(s, key)) && (key in s'.misread <==> key in s.misread)
    requires forall j :: Produces(s'.shadows, j, key) ==> Produces(s.shadows, j, key)
                                                          && s'.shadows[j].(touched := false) == s.shadows[j].(touched := false)
    requires key in s'.snapshots ==> key in s.snapshots && s'.snapshots[key].mtime == s.snapshots[key].mtime
    requires key in s'.snapshots || key !in s.snapshots ==> (key in s.dirs <==> key in s'.dirs) && (key in s.dirs ==> s'.dirs[key] == s.dirs[key])
    ensures KeyInv(s', key)
  {
  }

  lemma CacheKeeps(s: State, c: CacheStep, key: Key)
    requires KeyInv(s, key) && CacheEnabled(s, c)
    ensures KeyInv(DoCache(s, c), key)
  {
    OtherKey(s, DoCache(s, c), key);
  }

  lemma LaunchKeeps(s: State, i: TriggerId, j: ShadowId, key: Key)
    requires KeyInv(s, key) && TriggerEnabled(s, Launch(i, j))
    ensures KeyInv(DoTrigger(s, Launch(i, j)), key)
  {
    var s' := DoTrigger(s, Launch(i, j));
    if s.triggers[i].key != key {
      OtherKey(s, s', key);
    } else if Clean(s', key) {
      assert forall h :: Produces(s'.shadows, h, key) ==> h == j || Produces(s.shadows, h, key);
    }
  }

  lemma BeginKeeps(s: State, t: TriggerStep, key: Key)
    requires KeyInv(s, key) && TriggerEnabled(s, t) && t.Begin?
    ensures KeyInv(DoTrigger(s, t), key)
  {
    OtherKey(s, DoTrigger(s, t), key);
  }

  lemma TriggerKeeps(s: State, t: TriggerStep, key: Key)
    requires KeyInv(s, key) && TriggerEnabled(s, t)
    ensures KeyInv(DoTrigger(s, t), key)
  {
    match t
    case Launch(i, j) => LaunchKeeps(s, i, j, key);
    case Begin(_, _, _, _) => BeginKeeps(s, t, key);
    case CheckHandles(_) =>
    case InsertHandle(_) =>
  }

  /** Only the producer's own record changes, so it stays the only producer of its key. */
  lemma OnlyProducer(s: State, shadows: map<ShadowId, Shadow>, j: ShadowId, sh: Shadow, key: Key)
    requires Sound(s.snapshots, s.dirs, s.shadows, s.misread, key) && Produces(s.shadows, j, key)
    requires shadows == s.shadows[j := sh]
    ensures forall h :: Produces(shadows, h, key) ==> h == j
  {
    forall h | Produces(shadows, h, key) ensures h == j {
      assert h != j ==> Produces(s.shadows, h, key);
    }
  }

  lemma PublishOwn(max: nat, s: State, j: ShadowId, evicted: set<Key>, left: set<Key>)
    requires ShadowEnabled(max, s, j, Publish(evicted, left)) && KeyInv(s, s.shadows[j].key)
    ensures KeyInv(DoPublish(s, j, s.shadows[j], evicted, left), s.shadows[j].key)
  {
    var sh := s.shadows[j];
    if Clean(s, sh.key) {
      assert Produces(s.shadows, j, sh.key);
      OnlyProducer(s, s.shadows[j := sh.(pc := Over)], j, sh.(pc := Over), sh.key);
      assert sh.key !in evicted;
    }
  }

  lemma PublishKeeps(max: nat, s: State, j: ShadowId, evicted: set<Key>, left: set<Key>, key: Key)
    requires KeyInv(s, key) && ShadowEnabled(max, s, j, Publish(evicted, left))
    ensures KeyInv(DoPublish(s, j, s.shadows[j], evicted, left), key)
  {
    if s.shadows[j].key == key {
      PublishOwn(max, s, j, evicted, left);
    } else {
      OtherKey(s, DoPublish(s, j, s.shadows[j], evicted, left), key);
    }
  }

  /** A producer's own progress. */
  lemma ProducerKeeps(max: nat, s: State, j: ShadowId, x: ShadowStep, key: Key)
    requires KeyInv(s, key) && ShadowEnabled(max, s, j, x) && s.shadows[j].key == key && !x.Publish? && !x.RemoveHandle?
    ensures KeyInv(DoShadow(max, s, j, x), key)
  {
    var s' := DoShadow(max, s, j, x);
    if Clean(s, key) {
      assert Produces(s.shadows, j, key);
      OnlyProducer(s, s'.shadows, j, s'.shadows[j], key);
    }
  }

  lemma ShadowKeeps(max: nat, s: State, j: ShadowId, x: ShadowStep, key: Key)
    requires KeyInv(s, key) && ShadowEnabled(max, s, j, x)
    ensures KeyInv(DoShadow(max, s, j, x), key)
  {
    if x.Publish? {
      PublishKeeps(max, s, j, x.evicted, x.left, key);
    } else if s.shadows[j].key == key && !x.RemoveHandle? {
      ProducerKeeps(max, s, j, x, key);
    } else {
      OtherKey(s, DoShadow(max, s, j, x), key);
    }
  }

  lemma StepKeeps(max: nat, s: State, step: Step, key: Key)
    requires KeyInv(s, key) && Enabled(max, s, step)
    ensures KeyInv(Do(max, s, step), key)
  {
    match step
    case CacheStep(c) => CacheKeeps(s, c, key);
    case TriggerStep(t) => TriggerKeeps(s, t, key);
    case ShadowStep(j, x) => ShadowKeeps(max, s, j, x, key);
    case Modify(_, _) => OtherKey(s, Do(max, s, step), key);
    case Delete(_) =>
  }

  lemma {:induction false} RunKeeps(max: nat, s: State, run: seq<Step>, r: State, key: Key)
    requires KeyInv(s, key) && Reaches(max, s, run, r)
    ensures KeyInv(r, key)
    decreases |run|
  {
    if run != [] {
      StepKeeps(max, s, run[0], key);
      RunKeeps(max, Do(max, s, run[0]), run[1..], r, key);
    }
  }

  // ------------------------------------------------------- untouched images

  /** An exposed shadow whose image was not written since the hot-plug still has the image it was built from. */
  ghost predicate ImageInv(s: State) {
    forall j :: j in s.shadows && Exposed(s.shadows[j]) && !s.shadows[j].touched && s.shadows[j].path in s.images ==>
      s.images[s.shadows[j].path] == s.shadows[j].built
  }

  lemma ShadowImage(max: nat, s: State, j: ShadowId, x: ShadowStep)
    requires ImageInv(s) && ShadowEnabled(max, s, j, x)
    ensures ImageInv(DoShadow(max, s, j, x))
  {
    var s' := DoShadow(max, s, j, x);
    assert s'.images == s.images;
    assert forall i :: i in s'.shadows && i != j ==> i in s.shadows && s'.shadows[i] == s.shadows[i];
    assert j in s'.shadows && Exposed(s'.shadows[j]) && !x.Plug? ==>
             Exposed(s.shadows[j]) && s'.shadows[j].(pc := s.shadows[j].pc) == s.shadows[j];
  }

  lemma TriggerImage(s: State, t: TriggerStep)
    requires ImageInv(s) && TriggerEnabled(s, t)
    ensures ImageInv(DoTrigger(s, t))
  {
  }

  lemma StepImage(max: nat, s: State, step: Step)
    requires ImageInv(s) && Enabled(max, s, step)
    ensures ImageInv(Do(max, s, step))
  {
    match step
    case TriggerStep(t) => TriggerImage(s, t);
    case ShadowStep(j, x) => ShadowImage(max, s, j, x);
    case _ =>
  }

  lemma {:induction false} RunImage(max: nat, s: State, run: seq<Step>, r: State)
    requires ImageInv(s) && Reaches(max, s, run, r)
    ensures ImageInv(r)
    decreases |run|
  {
    if run != [] {
      StepImage(max, s, run[0]);
      RunImage(max, Do(max, s, run[0]), run[1..], r);
    }
  }
}
