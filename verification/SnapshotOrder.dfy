/** The snapshot entries of the step machine, in every run, are a list ordered by recency. */
module SnapshotOrder {
  import opened Basics
  import opened SnapshotCache
  import opened SnapshotMachine

  /** What a step does to the list: a lookup drops a stale item and reorders nothing, a warm restore moves
      its item to the back, a publication drops the evicted items and goes to the back, and nothing else
      touches it. */
  function ListAfter(s: State, step: Step, l: seq<Item>): seq<Item> {
    match step
    case CacheStep(Lookup(key, path, _)) => ListHas(l, key, CurrentMtime(s, path))
    case CacheStep(Open(_, key)) => ListGet(l, key)
    case TriggerStep(Begin(_, key, path, _)) => ListHas(l, key, CurrentMtime(s, Some(path)))
    case ShadowStep(j, Publish(evicted, _)) =>
      if j in s.shadows && s.shadows[j].pc.Stamped? then
        var sh := s.shadows[j];
        Without(Keep(l, evicted), sh.key) + [Item(sh.key, sh.key, sh.pc.mtime)]
      else l
    case _ => l
  }

  lemma {:induction false} KeepKeeps(m: map<Key, Entry>, l: seq<Item>, gone: set<Key>, clock: nat)
    requires Refines(m, l, clock) && gone <= m.Keys
    ensures Refines(m - gone, Keep(l, gone), clock)
    decreases gone
  {
    if gone == {} {
      KeepAll(l);
      assert m - gone == m;
    } else {
      var key :| key in gone;
      var less := gone - {key};
      KeepKeeps(m, l, less, clock);
      WithoutKeeps(m - less, Keep(l, less), key, clock);
      KeepLess(l, less, key);
      assert less + {key} == gone && m - less - {key} == m - gone;
    }
  }

  lemma LookupOrder(s: State, key: Key, path: Option<Path>, rm: Removal, l: seq<Item>)
    requires Refines(s.snapshots, l, s.clock)
    ensures Refines(DoLookup(s, key, path, rm).snapshots, ListHas(l, key, CurrentMtime(s, path)), s.clock)
  {
    HasIs(s.snapshots, l, key, CurrentMtime(s, path));
    WithoutKeeps(s.snapshots, l, key, s.clock);
  }

  lemma TouchKeeps(m: map<Key, Entry>, l: seq<Item>, key: Key, item: Item, now: nat, clock: nat)
    requires Refines(m, l, clock) && key in m && clock <= now && item == Item(key, m[key].dir, m[key].mtime)
    ensures Refines(m[key := m[key].(lastUsed := now)], Without(l, key) + [item], now)
  {
    WithoutKeeps(m, l, key, clock);
    AppendKeeps(m - {key}, Without(l, key), item, now, clock);
    assert m[key := m[key].(lastUsed := now)] == (m - {key})[key := Entry(item.dir, now, item.mtime)];
  }

  lemma GetIs(m: map<Key, Entry>, l: seq<Item>, key: Key)
    requires Matches(m, l)
    ensures ListGet(l, key) == if key in m then Without(l, key) + [Item(key, m[key].dir, m[key].mtime)] else l
  {
    EntryAt(m, l, key);
  }

  lemma OpenOrder(s: State, i: RestoreId, key: Key, l: seq<Item>)
    requires Refines(s.snapshots, l, s.clock)
    ensures Refines(DoCache(s, Open(i, key)).snapshots, ListGet(l, key), DoCache(s, Open(i, key)).clock)
  {
    GetIs(s.snapshots, l, key);
    if key in s.snapshots {
      var item := Item(key, s.snapshots[key].dir, s.snapshots[key].mtime);
      TouchKeeps(s.snapshots, l, key, item, s.clock + 1, s.clock);
    }
  }

  lemma EvictAndPut(m: map<Key, Entry>, l: seq<Item>, evicted: set<Key>, item: Item, now: nat, clock: nat)
    requires Refines(m, l, clock) && evicted <= m.Keys && clock <= now
    ensures Refines((m - evicted)[item.key := Entry(item.dir, now, item.mtime)],
                    Without(Keep(l, evicted), item.key) + [item], now)
  {
    KeepKeeps(m, l, evicted, clock);
    PutKeeps(m - evicted, Keep(l, evicted), item, now, clock);
  }

  lemma PublishOrder(max: nat, s: State, j: ShadowId, evicted: set<Key>, left: set<Key>, l: seq<Item>)
    requires Refines(s.snapshots, l, s.clock) && ShadowEnabled(max, s, j, Publish(evicted, left))
    ensures Refines(DoPublish(s, j, s.shadows[j], evicted, left).snapshots,
                    ListAfter(s, ShadowStep(j, Publish(evicted, left)), l), s.clock + 1)
  {
    var sh := s.shadows[j];
    EvictAndPut(s.snapshots, l, evicted, Item(sh.key, sh.key, sh.pc.mtime), s.clock + 1, s.clock);
  }

  lemma ShadowOrder(max: nat, s: State, j: ShadowId, x: ShadowStep, l: seq<Item>)
    requires Refines(s.snapshots, l, s.clock) && ShadowEnabled(max, s, j, x)
    ensures Refines(DoShadow(max, s, j, x).snapshots, ListAfter(s, ShadowStep(j, x), l), DoShadow(max, s, j, x).clock)
  {
    if x.Publish? {
      PublishOrder(max, s, j, x.evicted, x.left, l);
    } else {
      assert DoShadow(max, s, j, x).snapshots == s.snapshots && DoShadow(max, s, j, x).clock == s.clock;
    }
  }

  lemma TriggerOrder(s: State, t: TriggerStep, l: seq<Item>)
    requires Refines(s.snapshots, l, s.clock) && TriggerEnabled(s, t)
    ensures Refines(DoTrigger(s, t).snapshots, ListAfter(s, TriggerStep(t), l), DoTrigger(s, t).clock)
  {
    if t.Begin? {
      LookupOrder(s, t.key, Some(t.path), t.rm, l);
      HasIs(s.snapshots, l, t.key, CurrentMtime(s, Some(t.path)));
    } else {
      assert DoTrigger(s, t).snapshots == s.snapshots && DoTrigger(s, t).clock == s.clock;
    }
  }

  /** Each step keeps the entries in agreement with the list as `ListAfter` says. */
  lemma OrderStep(max: nat, s: State, step: Step, l: seq<Item>)
    requires Refines(s.snapshots, l, s.clock) && Enabled(max, s, step)
    ensures Refines(Do(max, s, step).snapshots, ListAfter(s, step, l), Do(max, s, step).clock)
  {
    match step
    case CacheStep(Lookup(key, path, rm)) => LookupOrder(s, key, path, rm, l);
    case CacheStep(Open(i, key)) => OpenOrder(s, i, key, l);
    case CacheStep(Read(_)) =>
    case TriggerStep(t) => TriggerOrder(s, t, l);
    case ShadowStep(j, x) => ShadowOrder(max, s, j, x, l);
    case Modify(_, _) =>
    case Delete(_) =>
  }

  ghost function ListOfRun(max: nat, s: State, run: seq<Step>, l: seq<Item>): seq<Item>
    decreases |run|
  {
    if run == [] || !Enabled(max, s, run[0]) then l
    else ListOfRun(max, Do(max, s, run[0]), run[1..], ListAfter(s, run[0], l))
  }

  lemma {:induction false} OrderRun(max: nat, s: State, run: seq<Step>, r: State, l: seq<Item>)
    requires Refines(s.snapshots, l, s.clock) && Reaches(max, s, run, r)
    ensures Refines(r.snapshots, ListOfRun(max, s, run, l), r.clock)
    decreases |run|
  {
    if run != [] {
      OrderStep(max, s, run[0], l);
      OrderRun(max, Do(max, s, run[0]), run[1..], r, ListAfter(s, run[0], l));
    }
  }

  /** In every run the cached entries are, key by key and in the order of their timestamps, the recency
      list that the steps of the run build from the empty one. */
  lemma RecencyOrder(max: nat, run: seq<Step>, s: State)
    requires Reaches(max, InitialState(), run, s)
    ensures SortedList(s.snapshots, ListOfRun(max, InitialState(), run, []))
  {
    OrderRun(max, InitialState(), run, s, []);
  }
}
