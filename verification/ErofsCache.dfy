/** The shared erofs image cache (`prepare_erofs` and its retry loop, crates/shim/src/instance.rs)
    as a step machine over any number of processes and threads.

    `flock` is exclusive per key and is dropped when its holder returns or its process dies. mkfs
    writes a temporary file named after the key and the process, so threads of one process share
    it; a process id is not reused. A killed process leaves its temporary file as it is. */
module ErofsCache {
  type Key = string
  type Pid = nat
  type Tid = nat

  /** The image of a key is the result of a completed mkfs for that key. */
  datatype File = Incomplete | Image(key: Key)

  datatype Pc =
    | Entry                       // before the first existence check
    | Blocked                     // lock file open, waiting in flock
    | Locked                      // lock held, before the second check
    | Building                    // mkfs running
    | Built                       // mkfs succeeded, before the rename
    | Returned(ok: bool)

  /** One call of `start_container` working on `key`; `attempt` counts failed attempts. */
  datatype Caller = Caller(pid: Pid, key: Key, attempt: nat, pc: Pc)

  const ATTEMPTS: nat := 3

  datatype State = State(
    callers: map<Tid, Caller>,
    holder: map<Key, Tid>,                 // who holds each flock
    published: map<Key, File>,             // <key>.erofs
    temp: map<(Key, Pid), File>,           // <key>.<pid>.tmp
    dead: set<Pid>,
    // bookkeeping
    renames: map<Key, nat>)

  function InitialState(): State {
    State(map[], map[], map[], map[], {}, map[])
  }

  datatype Step =
    | Call(t: Tid, pid: Pid, key: Key)
    | FirstCheck(t: Tid)
    | OpenFails(t: Tid)                    // create_dir_all, File::create or flock fails
    | TakeLock(t: Tid)
    | SecondCheck(t: Tid)
    | MkfsDone(t: Tid, ok: bool)           // mkfs ends, or could not be started
    | Rename(t: Tid, ok: bool)
    | Crash(pid: Pid)

  predicate PastLock(c: Caller) {
    c.pc.Locked? || c.pc.Building? || c.pc.Built?
  }

  predicate Enabled(s: State, step: Step) {
    match step
    case Call(t, pid, _) => t !in s.callers && pid !in s.dead
    case Crash(pid) => pid !in s.dead
    case FirstCheck(t) => t in s.callers && s.callers[t].pc.Entry?
    case OpenFails(t) => t in s.callers && s.callers[t].pc.Blocked?
    case TakeLock(t) => t in s.callers && s.callers[t].pc.Blocked? && s.callers[t].key !in s.holder
    case SecondCheck(t) => t in s.callers && s.callers[t].pc.Locked?
    case MkfsDone(t, _) => t in s.callers && s.callers[t].pc.Building?
    case Rename(t, _) => t in s.callers && s.callers[t].pc.Built?
  }

  function SetCaller(s: State, t: Tid, c: Caller): State {
    s.(callers := s.callers[t := c])
  }

  function Unlock(s: State, key: Key): State {
    s.(holder := s.holder - {key})
  }

  /** The retry loop: another attempt, or the last error. */
  function AfterError(c: Caller): Caller {
    if c.attempt + 1 < ATTEMPTS then c.(attempt := c.attempt + 1, pc := Entry) else c.(pc := Returned(false))
  }

  function DoRename(s: State, t: Tid, c: Caller, ok: bool): State {
    if !ok then SetCaller(Unlock(s, c.key), t, AfterError(c))
    else
      var file := if (c.key, c.pid) in s.temp then s.temp[(c.key, c.pid)] else Incomplete;
      SetCaller(Unlock(s, c.key), t, c.(pc := Returned(true))).(
        published := s.published[c.key := file],
        temp := s.temp - {(c.key, c.pid)},
        renames := s.renames[c.key := (if c.key in s.renames then s.renames[c.key] else 0) + 1])
  }

  function DoCrash(s: State, pid: Pid): State {
    s.(callers := map t | t in s.callers && s.callers[t].pid != pid :: s.callers[t],
       holder := map k | k in s.holder && s.holder[k] in s.callers && s.callers[s.holder[k]].pid != pid :: s.holder[k],
       dead := s.dead + {pid})
  }

  function Do(s: State, step: Step): State
    requires Enabled(s, step)
  {
    match step
    case Call(t, pid, key) => SetCaller(s, t, Caller(pid, key, 0, Entry))
    case Crash(pid) => DoCrash(s, pid)
    case FirstCheck(t) =>
      var c := s.callers[t];
      SetCaller(s, t, c.(pc := if c.key in s.published then Returned(true) else Blocked))
    case OpenFails(t) => SetCaller(s, t, AfterError(s.callers[t]))
    case TakeLock(t) =>
      SetCaller(s, t, s.callers[t].(pc := Locked)).(holder := s.holder[s.callers[t].key := t])
    case SecondCheck(t) =>
      var c := s.callers[t];
      if c.key in s.published then SetCaller(Unlock(s, c.key), t, c.(pc := Returned(true)))
      else SetCaller(s, t, c.(pc := Building)).(temp := s.temp[(c.key, c.pid) := Incomplete])
    case MkfsDone(t, ok) =>
      var c := s.callers[t];
      if ok then SetCaller(s, t, c.(pc := Built)).(temp := s.temp[(c.key, c.pid) := Image(c.key)])
      else SetCaller(Unlock(s, c.key), t, AfterError(c))
    case Rename(t, ok) => DoRename(s, t, s.callers[t], ok)
  }

  ghost predicate Reaches(s: State, run: seq<Step>, r: State)
    decreases |run|
  {
    if run == [] then r == s else Enabled(s, run[0]) && Reaches(Do(s, run[0]), run[1..], r)
  }

  ghost predicate Reachable(s: State) {
    exists run :: Reaches(InitialState(), run, s)
  }

  // -------------------------------------------------------------- invariants

  ghost predicate LockInv(callers: map<Tid, Caller>, holder: map<Key, Tid>) {
    && (forall t :: t in callers && PastLock(callers[t]) ==> callers[t].key in holder && holder[callers[t].key] == t)
    && (forall k :: k in holder ==>
          holder[k] in callers && callers[holder[k]].key == k && PastLock(callers[holder[k]]))
  }

  ghost predicate FileInv(s: State) {
    && (forall k :: k in s.published ==> s.published[k] == Image(k))
    && (forall t :: t in s.callers && (s.callers[t].pc.Building? || s.callers[t].pc.Built?) ==>
          s.callers[t].key !in s.published)
    && (forall t :: t in s.callers && s.callers[t].pc.Built? ==>
          (s.callers[t].key, s.callers[t].pid) in s.temp
          && s.temp[(s.callers[t].key, s.callers[t].pid)] == Image(s.callers[t].key))
    && (forall t :: t in s.callers && s.callers[t].pc == Returned(true) ==> s.callers[t].key in s.published)
    && (forall k :: k in s.renames <==> k in s.published)
    && (forall k :: k in s.renames ==> s.renames[k] == 1)
  }

  predicate CallerOk(c: Caller, dead: set<Pid>) {
    c.attempt < ATTEMPTS && c.pid !in dead && (c.pc == Returned(false) ==> c.attempt == 2)
  }

  ghost predicate CallerInv(s: State) {
    forall t :: t in s.callers ==> CallerOk(s.callers[t], s.dead)
  }

  ghost predicate Inv(s: State) {
    LockInv(s.callers, s.holder) && FileInv(s) && CallerInv(s)
  }

  lemma LockStays(callers: map<Tid, Caller>, holder: map<Key, Tid>, t: Tid, c: Caller)
    requires LockInv(callers, holder)
    requires if t in callers then c.key == callers[t].key && PastLock(c) == PastLock(callers[t]) else !PastLock(c)
    ensures LockInv(callers[t := c], holder)
  {
  }

  lemma LockDrops(callers: map<Tid, Caller>, holder: map<Key, Tid>, t: Tid, c: Caller)
    requires LockInv(callers, holder) && t in callers && PastLock(callers[t]) && !PastLock(c) && c.key == callers[t].key
    ensures LockInv(callers[t := c], holder - {c.key})
  {
  }

  lemma LockKeeps(s: State, step: Step)
    requires LockInv(s.callers, s.holder) && Enabled(s, step)
    ensures LockInv(Do(s, step).callers, Do(s, step).holder)
  {
    match step
    case Crash(_) =>
    case TakeLock(_) =>
    case SecondCheck(t) =>
      if s.callers[t].key in s.published { LockDrops(s.callers, s.holder, t, Do(s, step).callers[t]); }
      else { LockStays(s.callers, s.holder, t, Do(s, step).callers[t]); }
    case MkfsDone(t, ok) =>
      if ok { LockStays(s.callers, s.holder, t, Do(s, step).callers[t]); }
      else { LockDrops(s.callers, s.holder, t, Do(s, step).callers[t]); }
    case Rename(t, _) => LockDrops(s.callers, s.holder, t, Do(s, step).callers[t]);
    case _ => LockStays(s.callers, s.holder, step.t, Do(s, step).callers[step.t]);
  }

  lemma SecondCheckKeeps(s: State, t: Tid)
    requires LockInv(s.callers, s.holder) && FileInv(s) && Enabled(s, SecondCheck(t))
    ensures FileInv(Do(s, SecondCheck(t)))
  {
    assert forall u :: u in s.callers && u != t && PastLock(s.callers[u]) ==> s.callers[u].key != s.callers[t].key;
  }

  lemma MkfsKeeps(s: State, t: Tid, ok: bool)
    requires LockInv(s.callers, s.holder) && FileInv(s) && Enabled(s, MkfsDone(t, ok))
    ensures FileInv(Do(s, MkfsDone(t, ok)))
  {
    assert forall u :: u in s.callers && u != t && PastLock(s.callers[u]) ==> s.callers[u].key != s.callers[t].key;
  }

  lemma RenameKeeps(s: State, t: Tid, ok: bool)
    requires LockInv(s.callers, s.holder) && FileInv(s) && Enabled(s, Rename(t, ok))
    ensures FileInv(Do(s, Rename(t, ok)))
  {
    assert forall u :: u in s.callers && u != t && PastLock(s.callers[u]) ==> s.callers[u].key != s.callers[t].key;
  }

  lemma OtherKeeps(s: State, step: Step)
    requires FileInv(s) && Enabled(s, step) && !step.SecondCheck? && !step.MkfsDone? && !step.Rename?
    ensures FileInv(Do(s, step))
  {
  }

  lemma CallerKeeps(s: State, step: Step)
    requires CallerInv(s) && Enabled(s, step)
    ensures CallerInv(Do(s, step))
  {
    var s' := Do(s, step);
    forall t | t in s'.callers ensures CallerOk(s'.callers[t], s'.dead) {
      assert t in s.callers ==> CallerOk(s.callers[t], s.dead);
    }
  }

  lemma StepKeeps(s: State, step: Step)
    requires Inv(s) && Enabled(s, step)
    ensures Inv(Do(s, step))
  {
    LockKeeps(s, step);
    CallerKeeps(s, step);
    match step
    case SecondCheck(t) => SecondCheckKeeps(s, t);
    case MkfsDone(t, ok) => MkfsKeeps(s, t, ok);
    case Rename(t, ok) => RenameKeeps(s, t, ok);
    case _ => OtherKeeps(s, step);
  }

  lemma {:induction false} RunKeeps(s: State, run: seq<Step>, r: State)
    requires Inv(s) && Reaches(s, run, r)
    ensures Inv(r)
    decreases |run|
  {
    if run != [] {
      StepKeeps(s, run[0]);
      RunKeeps(Do(s, run[0]), run[1..], r);
    }
  }

  // ---------------------------------------------------------------- theorems

  /** In every interleaving of callers, failures, crashes and retries: at most one caller per key is
      past the lock, a published image is complete and is the image of its key, it was renamed into
      place once, and a caller that returned Ok finds it there. */
  lemma CacheSafety(s: State)
    requires Reachable(s)
    ensures forall t, u :: t in s.callers && u in s.callers && PastLock(s.callers[t]) && PastLock(s.callers[u]) ==>
              (s.callers[t].key == s.callers[u].key ==> t == u)
    ensures forall k :: k in s.published ==> s.published[k] == Image(k)
    ensures forall k :: k in s.renames ==> s.renames[k] == 1
    ensures forall t :: t in s.callers && s.callers[t].pc == Returned(true) ==> s.callers[t].key in s.published
    ensures forall t :: t in s.callers ==> s.callers[t].attempt < 3
    ensures forall t :: t in s.callers && s.callers[t].pc == Returned(false) ==> s.callers[t].attempt == 2
  {
    var run :| Reaches(InitialState(), run, s);
    RunKeeps(InitialState(), run, s);
  }

  /** Once published, an image stays, whatever happens later: an Ok return keeps its meaning. */
  lemma {:induction false} PublishedForever(s: State, run: seq<Step>, r: State, k: Key)
    requires Inv(s) && Reaches(s, run, r) && k in s.published
    ensures k in r.published && r.published[k] == s.published[k]
    decreases |run|
  {
    RunKeeps(s, run, r);
    if run != [] {
      StepKeeps(s, run[0]);
      PublishedForever(Do(s, run[0]), run[1..], r, k);
    }
  }

  /** In every reachable state a successful rename moves the finished file: it is published, the temporary
      name is gone, no other file changes, and the lock is free. */
  lemma RenameMoves(s: State, t: Tid)
    requires Reachable(s) && Enabled(s, Rename(t, true))
    ensures var s', key, pid := Do(s, Rename(t, true)), s.callers[t].key, s.callers[t].pid;
            && key !in s.published && s'.published == s.published[key := Image(key)]
            && (key, pid) in s.temp && s.temp[(key, pid)] == Image(key) && s'.temp == s.temp - {(key, pid)}
            && key !in s'.holder && s'.callers[t].pc == Returned(true)
  {
    var run :| Reaches(InitialState(), run, s);
    RunKeeps(InitialState(), run, s);
  }

  /** A crash of the lock holder frees the lock, so the key is never blocked for good. */
  lemma CrashFrees(s: State, k: Key)
    requires Reachable(s) && k in s.holder
    ensures s.holder[k] in s.callers && k !in DoCrash(s, s.callers[s.holder[k]].pid).holder
  {
    var run :| Reaches(InitialState(), run, s);
    RunKeeps(InitialState(), run, s);
  }

  // ------------------------------------------------------------------ retries

  /** The step makes an attempt of `t` fail. */
  predicate Fails(step: Step, t: Tid) {
    step == OpenFails(t) || step == MkfsDone(t, false) || step == Rename(t, false)
  }

  /** Failed attempts of `t` since its last call, if there were `n` before the run. */
  function Failures(n: nat, run: seq<Step>, t: Tid): nat
    decreases |run|
  {
    if run == [] then n
    else Failures(if run[0].Call? && run[0].t == t then 0 else if Fails(run[0], t) then n + 1 else n, run[1..], t)
  }

  ghost predicate Tally(s: State, t: Tid, n: nat) {
    t in s.callers ==> n == if s.callers[t].pc == Returned(false) then 3 else s.callers[t].attempt
  }

  lemma TallyKeeps(s: State, step: Step, t: Tid, n: nat)
    requires CallerInv(s) && Tally(s, t, n) && Enabled(s, step)
    ensures Tally(Do(s, step), t, if step.Call? && step.t == t then 0 else if Fails(step, t) then n + 1 else n)
  {
    assert t in s.callers ==> CallerOk(s.callers[t], s.dead);
  }

  lemma {:induction false} TallyRun(s: State, run: seq<Step>, r: State, t: Tid, n: nat)
    requires Inv(s) && Tally(s, t, n) && Reaches(s, run, r)
    ensures Tally(r, t, Failures(n, run, t))
    decreases |run|
  {
    if run != [] {
      var step := run[0];
      TallyKeeps(s, step, t, n);
      StepKeeps(s, step);
      TallyRun(Do(s, step), run[1..], r, t, if step.Call? && step.t == t then 0 else if Fails(step, t) then n + 1 else n);
    }
  }

  /** Over every run, a caller that returned an error failed exactly three times since its call, and any
      other caller exactly as often as it has tried again. */
  lemma RetriesExact(run: seq<Step>, s: State, t: Tid)
    requires Reaches(InitialState(), run, s) && t in s.callers
    ensures s.callers[t].pc == Returned(false) ==> Failures(0, run, t) == 3
    ensures s.callers[t].pc != Returned(false) ==> Failures(0, run, t) == s.callers[t].attempt < 3
  {
    TallyRun(InitialState(), run, s, t, 0);
    RunKeeps(InitialState(), run, s);
    assert CallerOk(s.callers[t], s.dead);
  }

  /** The call of `t` neither ends in a crash nor starts anew in the run. */
  predicate Undisturbed(run: seq<Step>, t: Tid, pid: Pid) {
    forall i :: 0 <= i < |run| ==> run[i] != Crash(pid) && !(run[i].Call? && run[i].t == t)
  }

  predicate AtEase(s: State, t: Tid, pid: Pid, key: Key) {
    && t in s.callers && s.callers[t].pid == pid && s.callers[t].key == key && key in s.published
    && (s.callers[t].pc.Entry? || s.callers[t].pc == Returned(true))
  }

  lemma {:induction false} AtEaseRun(s: State, run: seq<Step>, r: State, t: Tid, pid: Pid, key: Key)
    requires AtEase(s, t, pid, key) && Reaches(s, run, r) && Undisturbed(run, t, pid)
    ensures AtEase(r, t, pid, key)
    decreases |run|
  {
    if run != [] {
      assert run[0] != Crash(pid) && !(run[0].Call? && run[0].t == t);
      AtEaseStep(s, run[0], t, pid, key);
      AtEaseRun(Do(s, run[0]), run[1..], r, t, pid, key);
    }
  }

  lemma AtEaseStep(s: State, step: Step, t: Tid, pid: Pid, key: Key)
    requires AtEase(s, t, pid, key) && Enabled(s, step) && step != Crash(pid) && !(step.Call? && step.t == t)
    ensures AtEase(Do(s, step), t, pid, key)
    ensures step == FirstCheck(t) ==> Do(s, step).callers[t].pc == Returned(true)
  {
  }

  /** A call that finds its image published never waits for the lock, never fails, and returns Ok with
      its first check, whatever else happens. */
  lemma CachedNeverWaits(s: State, t: Tid, pid: Pid, key: Key, run: seq<Step>, r: State)
    requires Reachable(s) && key in s.published && Enabled(s, Call(t, pid, key))
    requires Reaches(Do(s, Call(t, pid, key)), run, r) && Undisturbed(run, t, pid)
    ensures t in r.callers && (r.callers[t].pc.Entry? || r.callers[t].pc == Returned(true))
    ensures r.callers[t].pc.Entry? ==> Do(r, FirstCheck(t)).callers[t].pc == Returned(true)
  {
    AtEaseRun(Do(s, Call(t, pid, key)), run, r, t, pid, key);
    if r.callers[t].pc.Entry? {
      AtEaseStep(r, FirstCheck(t), t, pid, key);
    }
  }
}
