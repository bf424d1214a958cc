/** `SnapshotManager`'s map of cached snapshots (crates/daemon/src/shadow.rs) and the plain
    recency-ordered list it implements. Timestamps come from a clock that never goes back. */
module SnapshotCache {
  import opened Basics

  type Key = string

  datatype Entry = Entry(dir: string, lastUsed: nat, mtime: Option<nat>)

  // ------------------------------------------------- the list it implements

  /** A cached snapshot without its timestamp. The list is ordered by recency, oldest first. */
  datatype Item = Item(key: Key, dir: string, mtime: Option<nat>)

  predicate Stale(recorded: Option<nat>, current: Option<nat>) {
    recorded.Some? && current.Some? && recorded != current
  }

  /** An entry is stale only when both mtimes are known, and then exactly when they differ, in either
      direction. */
  lemma StaleExact(recorded: Option<nat>, current: Option<nat>)
    ensures recorded.None? || current.None? ==> !Stale(recorded, current)
    ensures forall m, n :: recorded == Some(m) && current == Some(n) ==> (Stale(recorded, current) <==> m != n)
  {
  }

  /** Index of the first item with this key, or the length of the list. */
  function Position(l: seq<Item>, key: Key): (p: nat)
    ensures p <= |l| && (p < |l| ==> l[p].key == key)
    ensures forall j :: 0 <= j < p ==> l[j].key != key
  {
    if l == [] || l[0].key == key then 0 else Position(l[1..], key) + 1
  }

  predicate Contains(l: seq<Item>, key: Key) {
    Position(l, key) < |l|
  }

  function Without(l: seq<Item>, key: Key): seq<Item> {
    if Contains(l, key) then l[..Position(l, key)] + l[Position(l, key) + 1..] else l
  }

  /** `has_snapshot`: a stale item is dropped, anything else stays where it is. */
  function ListHas(l: seq<Item>, key: Key, current: Option<nat>): seq<Item> {
    if Contains(l, key) && Stale(l[Position(l, key)].mtime, current) then Without(l, key) else l
  }

  /** `get_snapshot_dir`: the item moves to the back. */
  function ListGet(l: seq<Item>, key: Key): seq<Item> {
    if Contains(l, key) then Without(l, key) + [l[Position(l, key)]] else l
  }

  /** How many entries the eviction loop removes. */
  function Evictions(size: nat, max: nat): (n: nat)
    ensures n <= size && (size - n < max || n == size)
    ensures n > 0 ==> size - (n - 1) >= max
  {
    if size < max then 0 else if max == 0 then size else size - max + 1
  }

  function ListPut(l: seq<Item>, max: nat, item: Item): seq<Item> {
    Without(l[Evictions(|l|, max)..], item.key) + [item]
  }

  datatype Op = Has(key: Key, current: Option<nat>) | Get(key: Key) | Put(item: Item)

  function ListOp(l: seq<Item>, max: nat, op: Op): seq<Item> {
    match op
    case Has(key, current) => ListHas(l, key, current)
    case Get(key) => ListGet(l, key)
    case Put(item) => ListPut(l, max, item)
  }

  function ListRun(l: seq<Item>, max: nat, ops: seq<Op>): seq<Item>
    decreases |ops|
  {
    if ops == [] then l else ListOp(ListRun(l, max, ops[..|ops| - 1]), max, ops[|ops| - 1])
  }

  /** However the list is used, it never grows beyond max(1, max). */
  lemma {:induction false} ListRunBound(l: seq<Item>, max: nat, ops: seq<Op>)
    requires |l| <= if max < 1 then 1 else max
    ensures |ListRun(l, max, ops)| <= if max < 1 then 1 else max
    decreases |ops|
  {
    if ops != [] {
      ListRunBound(l, max, ops[..|ops| - 1]);
    }
  }

  // --------------------------------------------- lists of items and the map

  ghost predicate Distinct(l: seq<Item>) {
    forall i, j :: 0 <= i < j < |l| ==> l[i].key != l[j].key
  }

  function KeySet(l: seq<Item>): set<Key> {
    if l == [] then {} else {l[0].key} + KeySet(l[1..])
  }

  lemma InKeySet(l: seq<Item>, k: Key)
    ensures k in KeySet(l) <==> Contains(l, k)
  {
  }

  ghost predicate Matches(m: map<Key, Entry>, l: seq<Item>) {
    && (forall i :: 0 <= i < |l| ==> l[i].key in m && m[l[i].key].dir == l[i].dir && m[l[i].key].mtime == l[i].mtime)
    && m.Keys == KeySet(l)
  }

  ghost predicate SortedBy(m: map<Key, Entry>, l: seq<Item>)
    requires Matches(m, l)
  {
    forall i, j :: 0 <= i < j < |l| ==> m[l[i].key].lastUsed <= m[l[j].key].lastUsed
  }

  ghost predicate StrictlySortedBy(m: map<Key, Entry>, l: seq<Item>)
    requires Matches(m, l)
  {
    forall i, j :: 0 <= i < j < |l| ==> m[l[i].key].lastUsed < m[l[j].key].lastUsed
  }

  ghost predicate Refines(m: map<Key, Entry>, l: seq<Item>, clock: nat) {
    Distinct(l) && Matches(m, l) && SortedBy(m, l) && forall k :: k in m ==> m[k].lastUsed <= clock
  }

  /** The list holds exactly the entries of the map, oldest timestamp first. */
  ghost predicate SortedList(m: map<Key, Entry>, l: seq<Item>) {
    Distinct(l) && Matches(m, l) && SortedBy(m, l)
  }

  lemma ContainsAt(l: seq<Item>, i: nat)
    requires i < |l|
    ensures Contains(l, l[i].key)
  {
  }

  lemma WithoutContains(l: seq<Item>, key: Key, k: Key)
    requires Contains(l, k) && k != key
    ensures Contains(Without(l, key), k)
  {
    var r, p, i := Without(l, key), Position(l, key), Position(l, k);
    if Contains(l, key) {
      ContainsAt(r, if i < p then i else i - 1);
    }
  }

  /** Removing an item removes its index and nothing else. */
  lemma WithoutAt(l: seq<Item>, key: Key) returns (p: nat)
    requires Contains(l, key)
    ensures p == Position(l, key) < |l| && l[p].key == key && |Without(l, key)| == |l| - 1
    ensures forall i :: 0 <= i < |l| - 1 ==> Without(l, key)[i] == l[if i < p then i else i + 1]
  {
    p := Position(l, key);
  }

  lemma WithoutMatches(m: map<Key, Entry>, l: seq<Item>, key: Key)
    requires Distinct(l) && Matches(m, l) && key in m
    ensures Distinct(Without(l, key)) && Matches(m - {key}, Without(l, key))
  {
    InKeySet(l, key);
    var p := WithoutAt(l, key);
    var r := Without(l, key);
    forall k ensures k in KeySet(r) <==> k in KeySet(l) && k != key {
      InKeySet(l, k);
      InKeySet(r, k);
      if Contains(l, k) && k != key { WithoutContains(l, key, k); }
      if Contains(r, k) { ContainsAt(l, if Position(r, k) < p then Position(r, k) else Position(r, k) + 1); }
    }
  }

  lemma WithoutSorted(m: map<Key, Entry>, l: seq<Item>, key: Key)
    requires Distinct(l) && Matches(m, l) && key in m && Matches(m - {key}, Without(l, key))
    ensures SortedBy(m, l) ==> SortedBy(m - {key}, Without(l, key))
    ensures StrictlySortedBy(m, l) ==> StrictlySortedBy(m - {key}, Without(l, key))
  {
    InKeySet(l, key);
    var p := WithoutAt(l, key);
  }

  lemma WithoutKeeps(m: map<Key, Entry>, l: seq<Item>, key: Key, clock: nat)
    requires Refines(m, l, clock)
    ensures Refines(m - {key}, Without(l, key), clock)
    ensures StrictlySortedBy(m, l) ==> StrictlySortedBy(m - {key}, Without(l, key))
    ensures Contains(l, key) <==> key in m
    ensures |Without(l, key)| == |l| - (if key in m then 1 else 0)
  {
    InKeySet(l, key);
    if key in m {
      WithoutMatches(m, l, key);
      WithoutSorted(m, l, key);
    } else {
      assert m - {key} == m;
    }
  }

  lemma {:induction false} KeySetAppend(l: seq<Item>, item: Item)
    ensures KeySet(l + [item]) == KeySet(l) + {item.key}
  {
    if l == [] {
      assert KeySet([item][1..]) == {};
    } else {
      KeySetAppend(l[1..], item);
      assert (l + [item])[1..] == l[1..] + [item];
    }
  }

  lemma EntryAt(m: map<Key, Entry>, l: seq<Item>, key: Key)
    requires Matches(m, l)
    ensures Contains(l, key) <==> key in m
    ensures key in m ==> l[Position(l, key)] == Item(key, m[key].dir, m[key].mtime)
  {
    InKeySet(l, key);
  }

  lemma HasIs(m: map<Key, Entry>, l: seq<Item>, key: Key, current: Option<nat>)
    requires Matches(m, l)
    ensures ListHas(l, key, current) == if key in m && Stale(m[key].mtime, current) then Without(l, key) else l
  {
    EntryAt(m, l, key);
  }

  predicate Oldest(m: map<Key, Entry>, victim: Key) {
    victim in m && forall k :: k in m ==> m[victim].lastUsed <= m[k].lastUsed
  }

  /** The head of the list is an oldest entry, and the only one when timestamps differ. */
  lemma HeadIsOldest(m: map<Key, Entry>, l: seq<Item>, clock: nat)
    requires Refines(m, l, clock) && m != map[]
    ensures l != [] && Oldest(m, l[0].key)
    ensures StrictlySortedBy(m, l) ==> forall v :: Oldest(m, v) ==> v == l[0].key
  {
    var k :| k in m;
    InKeySet(l, k);
    forall v | v in m ensures m[l[0].key].lastUsed <= m[v].lastUsed {
      InKeySet(l, v);
      assert l[Position(l, v)].key == v;
    }
    if StrictlySortedBy(m, l) {
      forall v | Oldest(m, v) ensures v == l[0].key {
        InKeySet(l, v);
        assert l[Position(l, v)].key == v;
      }
    }
  }

  /** A new or renewed item goes to the back, stamped with the present time. */
  lemma AppendKeeps(m: map<Key, Entry>, l: seq<Item>, item: Item, now: nat, clock: nat)
    requires Refines(m, l, clock) && clock <= now && item.key !in m
    ensures Refines(m[item.key := Entry(item.dir, now, item.mtime)], l + [item], now)
    ensures StrictlySortedBy(m, l) && clock < now ==>
              StrictlySortedBy(m[item.key := Entry(item.dir, now, item.mtime)], l + [item])
  {
    var m' := m[item.key := Entry(item.dir, now, item.mtime)];
    var l' := l + [item];
    KeySetAppend(l, item);
  }

  lemma {:induction false} SameSize(m: map<Key, Entry>, l: seq<Item>)
    requires Distinct(l) && Matches(m, l)
    ensures |m| == |l|
    decreases |l|
  {
    if l == [] {
      assert m == map[];
    } else {
      var key := l[0].key;
      WithoutMatches(m, l, key);
      assert Without(l, key) == l[1..];
      SameSize(m - {key}, l[1..]);
      assert m.Keys == (m - {key}).Keys + {key};
    }
  }

  lemma PutKeeps(m: map<Key, Entry>, l: seq<Item>, item: Item, now: nat, clock: nat)
    requires Refines(m, l, clock) && clock <= now
    ensures var m' := m[item.key := Entry(item.dir, now, item.mtime)];
            && Refines(m', Without(l, item.key) + [item], now)
            && (StrictlySortedBy(m, l) && clock < now ==> StrictlySortedBy(m', Without(l, item.key) + [item]))
            && |m'| <= |m| + 1
  {
    var m' := m[item.key := Entry(item.dir, now, item.mtime)];
    WithoutKeeps(m, l, item.key, clock);
    AppendKeeps(m - {item.key}, Without(l, item.key), item, now, clock);
    assert m' == (m - {item.key})[item.key := Entry(item.dir, now, item.mtime)];
    assert m'.Keys == m.Keys + {item.key};
  }

  /** `evicted` went from `before`, nothing else did, and nothing that stayed is older. */
  ghost predicate EvictedFrom(before: map<Key, Entry>, after: map<Key, Entry>, evicted: set<Key>) {
    && evicted <= before.Keys && after == before - evicted
    && forall v, k :: v in evicted && k in after ==> before[v].lastUsed <= after[k].lastUsed
  }

  lemma EvictedStep(before: map<Key, Entry>, mid: map<Key, Entry>, evicted: set<Key>, victim: Key)
    requires EvictedFrom(before, mid, evicted) && Oldest(mid, victim)
    ensures EvictedFrom(before, mid - {victim}, evicted + {victim})
    ensures |mid - {victim}| == |mid| - 1 && |evicted + {victim}| == |evicted| + 1
  {
    assert mid.Keys == (mid - {victim}).Keys + {victim};
    assert mid - {victim} == before - (evicted + {victim});
  }

  lemma {:induction false} SomeOldest(m: map<Key, Entry>) returns (victim: Key)
    requires m != map[]
    ensures Oldest(m, victim)
    decreases |m|
  {
    victim :| victim in m;
    var rest := m - {victim};
    assert m.Keys == rest.Keys + {victim};
    if rest != map[] {
      var other := SomeOldest(rest);
      if m[other].lastUsed < m[victim].lastUsed {
        victim := other;
      }
      assert forall k :: k in m ==> k in rest || k in m.Keys - rest.Keys;
    }
  }

  /** Whatever the map holds, any number of its entries can be evicted in order of age. */
  lemma {:induction false} SomeEviction(m: map<Key, Entry>, n: nat) returns (evicted: set<Key>)
    requires n <= |m|
    ensures EvictedFrom(m, m - evicted, evicted) && |evicted| == n
    decreases n
  {
    evicted := {};
    if n > 0 {
      evicted := SomeEviction(m, n - 1);
      var mid := m - evicted;
      assert m.Keys == mid.Keys + evicted;
      var victim := SomeOldest(mid);
      EvictedStep(m, mid, evicted, victim);
      evicted := evicted + {victim};
      assert mid - {victim} == m - evicted;
    }
  }

  /** The list without the items of some keys. */
  function Keep(l: seq<Item>, gone: set<Key>): seq<Item> {
    if l == [] then [] else (if l[0].key in gone then [] else [l[0]]) + Keep(l[1..], gone)
  }

  lemma {:induction false} KeepAll(l: seq<Item>)
    ensures Keep(l, {}) == l
  {
    if l != [] {
      KeepAll(l[1..]);
    }
  }

  lemma {:induction false} KeepAbsent(l: seq<Item>, gone: set<Key>, key: Key)
    requires forall i :: 0 <= i < |l| ==> l[i].key != key
    ensures Keep(l, gone + {key}) == Keep(l, gone)
  {
    if l != [] {
      KeepAbsent(l[1..], gone, key);
    }
  }

  lemma PositionCons(x: Item, l: seq<Item>, key: Key)
    ensures Position([x] + l, key) == if x.key == key then 0 else Position(l, key) + 1
  {
    assert ([x] + l)[1..] == l;
  }

  lemma CutCons(x: Item, l: seq<Item>, p: nat)
    requires p < |l|
    ensures ([x] + l)[..p + 1] + ([x] + l)[p + 2..] == [x] + (l[..p] + l[p + 1..])
  {
  }

  lemma WithoutIs(l: seq<Item>, key: Key, p: nat)
    requires p == Position(l, key)
    ensures p < |l| ==> Without(l, key) == l[..p] + l[p + 1..]
    ensures p >= |l| ==> Without(l, key) == l
  {
  }

  lemma WithoutCons(x: Item, l: seq<Item>, key: Key)
    ensures Without([x] + l, key) == if x.key == key then l else [x] + Without(l, key)
  {
    var p := Position(l, key);
    PositionCons(x, l, key);
    WithoutIs(l, key, p);
    if x.key == key {
      WithoutIs([x] + l, key, 0);
      assert ([x] + l)[..0] + ([x] + l)[1..] == l;
    } else {
      WithoutIs([x] + l, key, p + 1);
      if p < |l| {
        CutCons(x, l, p);
      }
    }
  }

  /** Removing one key after others is removing it with them. */
  lemma {:induction false} KeepLess(l: seq<Item>, gone: set<Key>, key: Key)
    requires Distinct(l)
    ensures Without(Keep(l, gone), key) == Keep(l, gone + {key})
  {
    if l != [] {
      var x, rest := l[0], l[1..];
      KeepLess(rest, gone, key);
      assert [] + Keep(rest, gone) == Keep(rest, gone);
      assert [] + Keep(rest, gone + {key}) == Keep(rest, gone + {key});
      if x.key !in gone {
        WithoutCons(x, Keep(rest, gone), key);
        if x.key == key {
          KeepAbsent(rest, gone, key);
        }
      }
    }
  }

  /** What an operation may do to the list if timestamps can be equal: an eviction takes as many entries
      as it must, none of them newer than any that stays, and leaves the order of the others. */
  ghost predicate LooseOp(m: map<Key, Entry>, l: seq<Item>, max: nat, op: Op, l': seq<Item>) {
    match op
    case Has(key, current) => l' == ListHas(l, key, current)
    case Get(key) => l' == ListGet(l, key)
    case Put(item) =>
      exists evicted :: LooseEviction(m, l, max, evicted) && l' == Without(Keep(l, evicted), item.key) + [item]
  }

  ghost predicate LooseEviction(m: map<Key, Entry>, l: seq<Item>, max: nat, evicted: set<Key>) {
    EvictedFrom(m, m - evicted, evicted) && |evicted| == Evictions(|l|, max)
  }

  lemma Dropped(l: seq<Item>, n: nat)
    requires n <= |l| && l[n..] != []
    ensures n < |l| && l[n..][1..] == l[n + 1..]
  {
  }

  // -------------------------------------------------------------- the class

  class SnapshotManager {
    const maxSnapshots: nat
    var snapshots: map<Key, Entry>
    ghost var items: seq<Item>
    ghost var clock: nat

    ghost predicate Valid()
      reads this
    {
      Refines(snapshots, items, clock)
    }

    /** No two entries carry the same timestamp. */
    ghost predicate Strict()
      reads this
      requires Valid()
    {
      StrictlySortedBy(snapshots, items)
    }

    constructor (maxSnapshots: nat)
      ensures Valid() && Strict() && this.maxSnapshots == maxSnapshots && items == [] && snapshots == map[]
      ensures clock == 0
    {
      this.maxSnapshots := maxSnapshots;
      snapshots, items, clock := map[], [], 0;
    }

    /** `current` is the image's mtime when a path was given and its metadata could be read. */
    method HasSnapshot(key: Key, current: Option<nat>) returns (hit: bool)
      requires Valid()
      modifies this
      ensures Valid() && clock == old(clock) && (old(Strict()) ==> Strict())
      ensures hit <==> key in old(snapshots) && !Stale(old(snapshots)[key].mtime, current)
      ensures hit ==> key in snapshots
      ensures items == ListHas(old(items), key, current)
    {
      HasIs(snapshots, items, key, current);
      if key in snapshots {
        if snapshots[key].mtime.Some? && current.Some? && snapshots[key].mtime != current {
          WithoutKeeps(snapshots, items, key, clock);
          snapshots, items := snapshots - {key}, Without(items, key);
          return false;
        }
        return true;
      }
      return false;
    }

    method GetSnapshotDir(key: Key, now: nat) returns (dir: Option<string>)
      requires Valid() && clock <= now
      modifies this
      ensures Valid() && clock == now && (old(Strict()) && old(clock) < now ==> Strict())
      ensures dir == if key in old(snapshots) then Some(old(snapshots)[key].dir) else None
      ensures items == ListGet(old(items), key)
    {
      WithoutKeeps(snapshots, items, key, clock);
      if key in snapshots {
        var e := snapshots[key];
        ghost var item := items[Position(items, key)];
        AppendKeeps(snapshots - {key}, Without(items, key), item, now, clock);
        assert snapshots[key := e.(lastUsed := now)] == (snapshots - {key})[key := Entry(item.dir, now, item.mtime)];
        snapshots, items := snapshots[key := e.(lastUsed := now)], Without(items, key) + [item];
        dir := Some(e.dir);
      } else {
        dir := None;
      }
      clock := now;
    }

    /** One turn of the eviction loop: some entry with the least timestamp goes. */
    method EvictOne() returns (victim: Key)
      requires Valid() && snapshots != map[]
      modifies this
      ensures Valid() && clock == old(clock)
      ensures Oldest(old(snapshots), victim) && snapshots == old(snapshots) - {victim}
      ensures items == Without(old(items), victim)
      ensures old(items) != []
      ensures old(Strict()) ==> Strict() && items == old(items)[1..] && victim == old(items)[0].key
    {
      HeadIsOldest(snapshots, items, clock);
      victim :| Oldest(snapshots, victim);
      WithoutKeeps(snapshots, items, victim, clock);
      snapshots, items := snapshots - {victim}, Without(items, victim);
    }

    /** The same turn, seen from the start of the loop. */
    method EvictNext(ghost before: map<Key, Entry>, ghost list: seq<Item>, ghost strict: bool, ghost evicted: set<Key>)
      returns (ghost more: set<Key>)
      requires Valid() && snapshots != map[] && EvictedFrom(before, snapshots, evicted)
      requires Distinct(list) && items == Keep(list, evicted)
      requires strict ==> Strict() && |evicted| <= |list| && items == list[|evicted|..]
      modifies this
      ensures Valid() && clock == old(clock) && EvictedFrom(before, snapshots, more)
      ensures |more| == |evicted| + 1 && |snapshots| == |old(snapshots)| - 1 && items == Keep(list, more)
      ensures strict ==> Strict() && |more| <= |list| && items == list[|more|..]
    {
      var victim := EvictOne();
      EvictedStep(before, old(snapshots), evicted, victim);
      KeepLess(list, evicted, victim);
      more := evicted + {victim};
      if strict {
        Dropped(list, |evicted|);
      }
    }

    /** Evicts oldest entries until there is room. */
    method MakeRoom() returns (ghost evicted: set<Key>)
      requires Valid()
      modifies this
      ensures Valid() && clock == old(clock) && EvictedFrom(old(snapshots), snapshots, evicted)
      ensures |evicted| == Evictions(|old(snapshots)|, maxSnapshots) && |snapshots| == |old(snapshots)| - |evicted|
      ensures items == Keep(old(items), evicted)
      ensures old(Strict()) ==> Strict() && |evicted| <= |old(items)| && items == old(items)[|evicted|..]
    {
      evicted := {};
      SameSize(snapshots, items);
      KeepAll(items);
      assert snapshots == snapshots - evicted;
      while |snapshots| >= maxSnapshots
        invariant Valid() && clock == old(clock) && EvictedFrom(old(snapshots), snapshots, evicted)
        invariant |old(snapshots)| == |snapshots| + |evicted|
        invariant evicted != {} ==> |snapshots| + 1 >= maxSnapshots
        invariant items == Keep(old(items), evicted)
        invariant old(Strict()) ==> Strict() && |evicted| <= |old(items)| && items == old(items)[|evicted|..]
        decreases |snapshots|
      {
        if snapshots == map[] {
          break;
        }
        evicted := EvictNext(old(snapshots), old(items), old(Strict()), evicted);
      }
    }

    /** The lock section that ends `run_shadow`: make room, then insert. */
    method Publish(item: Item, now: nat) returns (ghost evicted: set<Key>)
      requires Valid() && clock <= now
      modifies this
      ensures Valid() && clock == now && (old(Strict()) && old(clock) < now ==> Strict())
      ensures EvictedFrom(old(snapshots), old(snapshots) - evicted, evicted)
      ensures snapshots == (old(snapshots) - evicted)[item.key := Entry(item.dir, now, item.mtime)]
      ensures |evicted| == Evictions(|old(snapshots)|, maxSnapshots)
      ensures |snapshots| <= if maxSnapshots < 1 then 1 else maxSnapshots
      ensures LooseEviction(old(snapshots), old(items), maxSnapshots, evicted)
      ensures items == Without(Keep(old(items), evicted), item.key) + [item]
      ensures old(Strict()) ==> items == ListPut(old(items), maxSnapshots, item)
    {
      SameSize(snapshots, items);
      evicted := MakeRoom();
      ghost var before, l := snapshots, items;
      PutKeeps(before, l, item, now, clock);
      snapshots := snapshots[item.key := Entry(item.dir, now, item.mtime)];
      items, clock := Without(l, item.key) + [item], now;
    }

    method Perform(op: Op, now: nat)
      requires Valid() && Strict() && clock < now
      modifies this
      ensures Valid() && Strict() && clock <= now && items == ListOp(old(items), maxSnapshots, op)
    {
      match op
      case Has(key, current) => var _ := HasSnapshot(key, current);
      case Get(key) => var _ := GetSnapshotDir(key, now);
      case Put(item) => ghost var _ := Publish(item, now);
    }

    /** Over any sequence of operations under a ticking clock, the map is the recency list. */
    method Replay(ops: seq<Op>, start: nat)
      requires Valid() && Strict() && clock < start
      modifies this
      ensures Valid() && Strict() && items == ListRun(old(items), maxSnapshots, ops)
    {
      var tick := start;
      for i := 0 to |ops|
        invariant Valid() && Strict() && clock < tick
        invariant items == ListRun(old(items), maxSnapshots, ops[..i])
      {
        assert ops[..i + 1][..i] == ops[..i];
        Perform(ops[i], tick);
        tick := tick + 1;
      }
      assert ops[..|ops|] == ops;
    }

    method PerformLoosely(op: Op, now: nat)
      requires Valid() && clock <= now
      modifies this
      ensures Valid() && clock <= now && LooseOp(old(snapshots), old(items), maxSnapshots, op, items)
    {
      match op
      case Has(key, current) => var _ := HasSnapshot(key, current);
      case Get(key) => var _ := GetSnapshotDir(key, now);
      case Put(item) => ghost var evicted := Publish(item, now);
    }

    /** Over any sequence of operations under a clock that merely does not go back, the map refines a list
        sorted by timestamp at every point, and the list goes from point to point as `LooseOp` allows. */
    method ReplayLoosely(ops: seq<Op>, times: seq<nat>)
      returns (ghost maps: seq<map<Key, Entry>>, ghost lists: seq<seq<Item>>)
      requires Valid() && |times| == |ops|
      requires forall i :: 0 <= i < |times| ==> clock <= times[i]
      requires forall i, j :: 0 <= i < j < |times| ==> times[i] <= times[j]
      modifies this
      ensures Valid() && |maps| == |lists| == |ops| + 1
      ensures maps[0] == old(snapshots) && lists[0] == old(items) && maps[|ops|] == snapshots && lists[|ops|] == items
      ensures forall i :: 0 <= i <= |ops| ==> SortedList(maps[i], lists[i])
      ensures forall i :: 0 <= i < |ops| ==> LooseOp(maps[i], lists[i], maxSnapshots, ops[i], lists[i + 1])
    {
      maps, lists := [snapshots], [items];
      for k := 0 to |ops|
        invariant Valid() && |maps| == |lists| == k + 1
        invariant forall i :: k <= i < |times| ==> clock <= times[i]
        invariant maps[0] == old(snapshots) && lists[0] == old(items) && maps[k] == snapshots && lists[k] == items
        invariant forall i :: 0 <= i <= k ==> SortedList(maps[i], lists[i])
        invariant forall i :: 0 <= i < k ==> LooseOp(maps[i], lists[i], maxSnapshots, ops[i], lists[i + 1])
      {
        PerformLoosely(ops[k], times[k]);
        maps, lists := maps + [snapshots], lists + [items];
      }
    }
  }
}
