# A model of the VM sandbox runtime

The repository runs Kubernetes pods in virtual machines: a daemon keeps a pool of ready VMs and a
cache of workload snapshots, a shim per pod asks the daemon for one VM and shares it among the pod's
containers, and an agent inside the VM runs the containers. This project models the parts whose
correctness does not depend on the kernel or the hypervisor, and proves what they guarantee.
`dafny verify dfyconfig.toml` checks everything. `Basics` holds what several modules share.

| part | files | form |
|---|---|---|
| VM pool | `PoolMachine`, `PoolInvariants`, `PoolTheorems`, `PoolHistory`, `Pool` | step machine over every lock section and atomic operation, and the class whose calls it refines |
| pods, request handlers, shadows | `PodSystem`, `PodInvariants`, `PodTheorems`, `PodRuns`, `Shim`, `ShimRefinement` | the pool composed with the shims, and the shim's handlers as a class that it refines |
| snapshot cache | `SnapshotCache`, `SnapshotMachine`, `SnapshotTheorems`, `SnapshotOrder`, `SnapshotRuns` | class against a recency list, and a step machine with the directories on disk |
| image cache | `ErofsCache`, `ImageKey` | step machine over processes, and the key hash |
| netlink | `NetlinkCodec`, `NetlinkBuild`, `NetlinkParse`, `NetlinkDump` | byte-level reference encoding, builders, parsers and framing loop |
| addresses | `Cidr` | functions on strings and bits |
| agent | `Agent`, `LogStream` | class and its runs, log buffers and polls |

In the step machines a *run* is any sequence of enabled steps, so a lemma about reachable states is
about every interleaving. Bookkeeping fields (ledgers, logs, `clashes`, `strays`, the key sets
`recached`, `doubled` and `misread`) never enable or disable a step.

## Hypotheses

- **VM ids.** `restore_one` reads the counter for the id and increments it for the CID in two
  operations. Both are separate steps here; `clashes` counts the reads that were overtaken and
  `overwritten` holds the VMs that an insert displaced. Results that need fresh ids say
  `clashes == 0`, or only `overwritten == {}`, and `ClashRun` shows what happens otherwise.
- **Shadow launches.** `trigger_shadow` looks at the cache and at the handles in separate lock
  sections. All are separate steps; for each key, `recached` and `doubled` record a launch while it was
  cached or in production. `OneShadowPerKey` excludes the second if calls for the key are serialised,
  `RaceRun` shows that this does not exclude the first, `UnracedEntries` says what does, and
  `LaunchSafety` says exactly which launches are harmless.
- **Shim.** Handlers of one sandbox run one after the other, each instance is started under a new id,
  and no RPC is lost. Handlers of different sandboxes interleave freely. Deletes of instances that are
  not live are steps like any other; `strays` counts them for each pod, and the exact conditions for a
  release are stated with that count. `ShimClass.VmsConserved` needs serialised handlers and distinct
  VMs only.
- **Names.** The process id in pool ids is constant and a warm id is told apart by its sequence
  number. In the image cache a process id is not used again after its process died; for the marks of a
  wait (`MarkExact`) a spawned process has a pid that none had before.
- **Numbers.** CIDs, counters and offsets are unbounded; 16-, 32- and 128-bit truncation is written
  out where the code relies on it. Byte order is little-endian.
- **Clock.** For the plain recency list the clock strictly advances; otherwise it only does not go
  back, and ties are broken arbitrarily.

## Where the code differs from its documentation

- `max_pool_size` and `vm_idle_timeout_secs` are declared (crates/daemon/src/config.rs:13-23) but
  nothing reads them: the bound on ready VMs is the one in `PoolHistory.PoolBoundRun`.
- `base_snapshot_valid` promises a comparison with the current kernel and root file system and only
  tests that three files exist (crates/daemon/src/pool.rs:202-208).
- docs/sandbox-daemon.md:683 says that a failed shadow is destroyed and retried. `run_shadow` returns
  early without releasing its VM, which stays in the active map for good (`ActivePartition`,
  `NoLeak`); and a shadow that ends before its handle is inserted blocks the key for ever
  (`StuckRun`, `StuckExact`, `StuckForever`).
- `infer_gateway` is described as the first usable address of the subnet; for prefix 0 it overflows
  or answers the next address (`Cidr.PrefixZero`).

## Model

| member | source | states |
|---|---|---|
| PoolInvariants.StepKeeps | crates/daemon/src/pool.rs:55-200 | every lock section and atomic operation of every task keeps the ledger, CID, counter, id, start-up and size invariants |
| PoolInvariants.RunKeeps | crates/daemon/src/pool.rs:55-200 | so does every run |
| PoolInvariants.NoDisplacement | crates/daemon/src/pool.rs:102-105 | with fresh ids an insert never replaces another VM in the active map |
| PoolTheorems.Counter | crates/daemon/src/pool.rs:96-158 | in every interleaving the counter is the size of the active map plus the tasks between their two operations plus the VMs an insert displaced: it never underflows or under-reports, and at quiescence it is exact if and only if nothing was displaced |
| PoolHistory.StaysReleased | crates/daemon/src/pool.rs:130-135 | in every continuation of a run a released VM stays released and keeps its record |
| PoolHistory.SecondRelease | crates/daemon/src/pool.rs:130-135 | with fresh ids the id of a released VM is never active again in any continuation, so another release of it, whenever it comes, changes neither the active map nor the counter |
| PoolHistory.ClashesExact | crates/daemon/src/pool.rs:261-266 | the overtaken id reads of a run are exactly its pool VMs whose id number is not their CID; there is none if and only if every pool VM has its CID as id number |
| PoolTheorems.OnePlace | crates/daemon/src/pool.rs:96-179 | every VM that was given a CID is in exactly one place: once in the ready vector, with one task, active, or gone |
| PoolTheorems.NoSharedGrant | crates/daemon/src/pool.rs:96-158 | no two acquirers of a run get the same VM or CID, nor, with fresh ids, the same id |
| PoolTheorems.DistinctCids | crates/daemon/src/pool.rs:191-200 | CIDs of base, pool and warm VMs are pairwise distinct and at least 3, and every VM has one of them |
| PoolHistory.CidsExact | crates/daemon/src/pool.rs:191-266 | over every run at most one base snapshot is made, its VM has CID 3, which no other VM ever has, and every other CID handed out is that of exactly one pool or warm VM |
| PoolHistory.GrantsExact | crates/daemon/src/pool.rs:96-158 | the log of grants holds exactly the VMs that are active, were released or were displaced |
| PoolHistory.PoolBoundRun | crates/daemon/src/pool.rs:162-179 | over every run in which at most K replenishers are ever past the length check at once, ready VMs and those replenishers together stay within max(pool_size, pool_size - 1 + K); with K at most 1 the pool never exceeds pool_size |
| PoolTheorems.ClashRun | crates/daemon/src/pool.rs:261-266 | two acquirers that read the counter before either increments it share an id: both are served, the counter says 2 and one VM is lost from the active map |
| PoolClass.Pool.constructor | crates/daemon/src/pool.rs:44-52 | an empty pool whose first CID is 3 |
| PoolClass.Pool.RestoreOne | crates/daemon/src/pool.rs:256-315 | a restore uses up one CID, whether it succeeds or not |
| PoolClass.Pool.Initialize | crates/daemon/src/pool.rs:55-92 | unless the base snapshot is there, making it takes a CID and a failure ends the start; then the successful restores, never more than pool_size, are added in CID order and nothing else is touched |
| PoolClass.Pool.Acquire | crates/daemon/src/pool.rs:96-127 | the last ready VM, or else a synchronous restore, becomes active and is counted |
| PoolClass.Pool.Release | crates/daemon/src/pool.rs:130-145 | the id is no longer active and the counter follows the map |
| PoolClass.Pool.RegisterActive | crates/daemon/src/pool.rs:154-158 | the VM is counted and active |
| PoolClass.Pool.ReplenishOne | crates/daemon/src/pool.rs:162-179 | one restore if the pool is short, none otherwise |
| PoolClass.AcquireRefines | crates/daemon/src/pool.rs:96-127 | from every reachable state, the steps of an acquire that runs alone reach a state with exactly the effect of `Pool.Acquire` |
| PoolClass.ReleaseRefines | crates/daemon/src/pool.rs:130-145 | the same for a release |
| PoolClass.ReplenishRefines | crates/daemon/src/pool.rs:162-179 | the same for a replenishment |
| PoolClass.InitializeRefines | crates/daemon/src/pool.rs:55-92 | the machine's start-up, for any outcomes of the restores, does what Initialize does to a new pool |
| PoolClass.Daemon.HandleAcquire | crates/daemon/src/api.rs:151-295 | a snapshot hit takes a warm number and a CID and is registered once network and agent are up; a failed restore falls back to the pool; an error of the container's start leaves the VM active |
| PoolClass.HandleReplies | crates/daemon/src/api.rs:151-295 | exactly when a request is answered with a VM, and with which; every snapshot hit uses up a warm number |
| PoolClass.WarmRefines | crates/daemon/src/api.rs:164-241 | from every reachable state the steps of a warm acquire that runs alone have exactly that effect |
| PoolClass.ErrorStrands | crates/daemon/src/api.rs:241-276 | with fresh ids a request answers with an error and yet leaves a VM active if and only if a VM came from the pool and the container did not run |
| PodInvariants.SystemStepKeeps | crates/daemon/src/api.rs:126-296 | every step of shims, daemon tasks and shadows keeps the ownership of active VMs, the pairing of requests with tasks, and each pod's counts |
| PodInvariants.SystemRunKeeps | crates/daemon/src/api.rs:126-296 | so does every run of the composed system |
| PodTheorems.ActivePartition | crates/daemon/src/api.rs:126-296 | as long as no insert met an occupied id, the active set is the disjoint union of the VMs held by shims, by running shadows, by acquires not yet answered, and those stranded by an error return after the acquire, one per such error |
| PodTheorems.NoLeak | crates/shim/src/instance.rs:125-246 | under the same condition, once all pods and tasks of a run have ended, the active map and the counter hold exactly one VM for each step of the run that failed after a successful acquire; without such steps the map is empty and the counter 0 |
| PodTheorems.StrandedExact | crates/daemon/src/api.rs:271-276 | the stranded VMs of a run are as many as its steps in which a container's start or a shadow failed after a successful acquire |
| PodTheorems.ReleaseHits | crates/daemon/src/api.rs:449-467 | under the same condition, whenever a release is about to remove an id, that id is active |
| PodTheorems.FreshIdsSuffice | crates/daemon/src/pool.rs:261-266 | the condition holds in every run in which no id read was overtaken |
| PodTheorems.PodLife | crates/shim/src/instance.rs:125-304 | whatever is deleted, a pod receives at most one VM and has asked for that VM's release exactly once by the time it is gone; the count of a registered sandbox is the number of its live instances less the deletes of instances that were not live, and at least 1 until its release |
| PodTheorems.DeleteExact | crates/shim/src/instance.rs:197-246 | for any delete, of a live instance or not: the pod's entry is dropped if and only if its live instances outnumber the earlier deletes of non-live ones by exactly one, and a VM is released if and only if it then also has one |
| PodTheorems.DeleteReleasesLast | crates/shim/src/instance.rs:197-246 | a delete of a live instance asks for the release if and only if the other live instances are as many as the earlier deletes of non-live ones; without such deletes, if and only if no other instance lives |
| PodTheorems.TakenFromLive | crates/shim/src/instance.rs:197-246 | a delete takes the VM from under an instance that lives on if and only if there is a VM, the live instances outnumber the earlier deletes of non-live ones by one, and the deleted instance is not the only live one |
| PodTheorems.UnstartedDelete | crates/shim/src/instance.rs:197-246 | a delete of an instance that is not live drops the pod's entry if and only if the live instances are one more than the earlier such deletes, and has a VM released under them if and only if the pod also has one; for the first such delete, if and only if a single instance lives |
| PodTheorems.KillExact | crates/shim/src/instance.rs:125-195 | a kill gives up a registered pod if and only if it sends SIGKILL or SIGTERM to the sandbox itself, and then its VM, if any, is released; every other kill changes nothing |
| PodRuns.StrayRun | crates/shim/src/instance.rs:197-246 | a reachable run: a container is deleted, the next one fails to start, and its delete has the VM released although the sandbox lives |
| PodRuns.LaterDeleteRun | crates/shim/src/instance.rs:197-246 | a reachable run: after the delete of a container that failed to start, the proper delete of another one has the VM released although the sandbox lives |
| PodRuns.SecondStrayRun | crates/shim/src/instance.rs:197-246 | a reachable run: the second delete of a container that failed to start has the VM released although two instances live |
| PodRuns.CleanRun | crates/daemon/src/shadow.rs:167-298 | a reachable run: a pod with a shadow beside it, from start to end without an error, leaves no active VM and a counter of 0 |
| PodRuns.WarmRun | crates/daemon/src/api.rs:164-233 | a reachable run: a pod whose image has a snapshot gets a VM restored from it |
| ShimClass.Handlers.StartSandbox | crates/shim/src/instance.rs:272-304 | a new state with count 1 and no VM, no request |
| ShimClass.Handlers.StartContainer | crates/shim/src/instance.rs:307-490 | the first container acquires and replaces the shared state, later ones are added to the VM; the count goes up by one only on success |
| ShimClass.Handlers.KillInstance | crates/shim/src/instance.rs:125-195 | SIGKILL or SIGTERM to the sandbox releases its VM, if any, and forgets it; any other signal is passed on |
| ShimClass.Handlers.DeleteInstance | crates/shim/src/instance.rs:197-246 | the count goes down; the last delete releases and forgets the sandbox, others are passed on |
| ShimClass.ContainerExact | crates/shim/src/instance.rs:307-490 | nothing happens without a sandbox or an image; the first container asks for a VM, every later one is added to it, and the count goes up by one exactly on success |
| ShimClass.KillExact | crates/shim/src/instance.rs:136-181 | the sandbox is given up if and only if SIGKILL or SIGTERM is sent to itself; any other signal is passed on and nothing else changes |
| ShimClass.DeleteExact | crates/shim/src/instance.rs:201-240 | the sandbox is given up if and only if the count is at most 1; any other delete only counts down and is passed on |
| ShimClass.VmsConserved | crates/shim/src/instance.rs:125-490 | for every sequence of calls, even with failed starts and stray deletes, each granted VM is held by exactly one entry, or its release was asked for exactly once, or a second start of its sandbox overwrote it, never two of these |
| ShimRefinement.SystemRefinesHandlers | crates/shim/src/instance.rs:125-490 | every run of the composed system is a sequence of handler calls which, run one after the other by the handlers as written, leave exactly its table of registered pods, counts and VMs |
| ShimRefinement.ShimSimulates | crates/shim/src/instance.rs:125-490 | each step of a pod, granted or refused acquires and answered releases included, keeps that agreement for all pods |
| ShimRefinement.ReleaseMatches | crates/shim/src/instance.rs:197-216 | the release task that the daemon serves is the request that the handler sent |
| SnapshotCache.SnapshotManager.HasSnapshot | crates/daemon/src/shadow.rs:63-84 | a hit if and only if the key is cached and its recorded mtime, if both are known, is the current one; a stale entry is dropped and nothing is reordered |
| SnapshotCache.SnapshotManager.GetSnapshotDir | crates/daemon/src/shadow.rs:87-95 | the entry moves to the back of the recency list |
| SnapshotCache.SnapshotManager.EvictOne | crates/daemon/src/shadow.rs:261-269 | some least recently used entry goes, the head of the list when timestamps differ |
| SnapshotCache.SnapshotManager.MakeRoom | crates/daemon/src/shadow.rs:259-273 | the loop ends, removes as few entries as needed, and nothing it keeps is older than anything it removed |
| SnapshotCache.SnapshotManager.Publish | crates/daemon/src/shadow.rs:255-283 | eviction and insert together are the list's put, and leave at most max(1, max_snapshots) entries |
| SnapshotCache.SnapshotManager.Replay | crates/daemon/src/shadow.rs:63-283 | over any sequence of operations under a ticking clock the timestamped map is the plain recency list |
| SnapshotCache.SnapshotManager.ReplayLoosely | crates/daemon/src/shadow.rs:63-283 | under a clock that merely does not go back, the map refines at every point a list sorted by timestamp, which each operation changes as the recency list does except that an eviction may choose among equally old entries |
| SnapshotCache.ListRunBound | crates/daemon/src/shadow.rs:259-282 | the list never exceeds max(1, max_snapshots) over any sequence of operations |
| SnapshotCache.HeadIsOldest | crates/daemon/src/shadow.rs:261-264 | the head of the list has the least timestamp, alone so when timestamps differ |
| SnapshotCache.StaleExact | crates/daemon/src/shadow.rs:65-79 | an entry is stale only when both mtimes are known, and then exactly when they differ, in either direction |
| SnapshotOrder.RecencyOrder | crates/daemon/src/shadow.rs:63-283 | in every run of lookups, restores, triggers and publications the cached entries are, in the order of their timestamps, the recency list that the steps build |
| SnapshotMachine.StepKeeps | crates/daemon/src/shadow.rs:63-283 | for each key, every lookup, warm restore, trigger section, shadow step, eviction and image change keeps the agreement of its entry, directory, recorded mtime and producer |
| SnapshotMachine.RunKeeps | crates/daemon/src/shadow.rs:63-283 | so does every run |
| SnapshotTheorems.CleanKey | crates/daemon/src/shadow.rs:63-283 | in every run, a key for which no shadow was launched while it was cached or in production has at most one producer, none while cached, and its complete directory when cached |
| SnapshotTheorems.OneShadowPerKey | crates/daemon/src/shadow.rs:139-161 | what the handles provide: if the trigger calls for a key come one after the other, the key never has two shadows and no launch for it meets one, whatever other keys do |
| SnapshotTheorems.EntriesHaveDirectories | crates/daemon/src/shadow.rs:133-283 | if the calls for a key come one after the other and none launched while it was cached, a cached key has its complete directory |
| SnapshotTheorems.UnracedEntries | crates/daemon/src/shadow.rs:133-283 | if the calls for a key come one after the other and no shadow publishes it while such a call is between its cache check and its launch, no launch ever meets the key cached or in production, and whenever it is cached its directory is complete |
| SnapshotTheorems.LaunchMeetsCached | crates/daemon/src/shadow.rs:133-156 | in every continuation of a trigger call up to its launch, the launch finds its key cached only if a shadow published that key after the call began |
| SnapshotTheorems.AcceptedStartsNothing | crates/daemon/src/shadow.rs:133-137 | a call for a key that the cache accepts starts nothing: without another call for the key no shadow of it appears in any continuation |
| SnapshotTheorems.OwnDirectorySafe | crates/daemon/src/shadow.rs:238-283 | for such a key the eviction loop never deletes the directory it is about to publish |
| SnapshotTheorems.PublishBound | crates/daemon/src/shadow.rs:259-282 | a publication leaves at most max(1, max_snapshots) entries |
| SnapshotTheorems.AcceptedIsFresh | crates/daemon/src/shadow.rs:63-84 | for a key without a launch while cached or in production: an accepted lookup with readable and recorded mtimes means a snapshot built from an image with the current mtime if and only if the last mtime read for the key was that of the hot-plug |
| SnapshotTheorems.ReadDecides | crates/daemon/src/shadow.rs:251-282 | decided at the mtime read for every accepted lookup up to the key's next launch: the snapshot is fresh if and only if at the read the image had the mtime of the hot-plug |
| SnapshotTheorems.UntouchedReads | crates/daemon/src/shadow.rs:186-253 | the read is right whenever the image was not written since the hot-plug |
| SnapshotTheorems.TouchedByWrite | crates/daemon/src/shadow.rs:186-253 | only a write to its own image, in the run, makes a shadow count as touched |
| SnapshotTheorems.LaunchSafety | crates/daemon/src/shadow.rs:133-163 | a clean key stays complete up to its next launch, in every continuation, if and only if at this launch it is neither cached nor in production |
| SnapshotTheorems.RestoreExact | crates/daemon/src/shadow.rs:87-115 | up to the next launch for the key, a warm restore finds a complete directory if and only if the key was not evicted or invalidated since its lookup |
| SnapshotTheorems.HandlesExact | crates/daemon/src/shadow.rs:139-161 | every registered key has a shadow in every state of a run if and only if each handle is inserted while a shadow of its key is still there |
| SnapshotTheorems.StuckExact | crates/daemon/src/shadow.rs:158-161 | an insert leaves its key stuck if and only if no shadow has the key and no other call for it is past its handle check |
| SnapshotRuns.RaceRun | crates/daemon/src/shadow.rs:135-145 | with calls one after the other and never two shadows at once, a publication between the cache check and the handle check still leads to an entry whose directory is being overwritten |
| SnapshotRuns.DoubleRun | crates/daemon/src/shadow.rs:139-161 | two calls for a key at once can both find no handle and launch two shadows |
| SnapshotRuns.RestoreRun | crates/daemon/src/shadow.rs:108-115 | a restore finds the directory deleted because the entry was invalidated after its lookup |
| SnapshotRuns.ModifiedRun | crates/daemon/src/shadow.rs:186-253 | an image changed between hot-plug and mtime read leaves an accepted entry built from the older image |
| SnapshotRuns.UnstampedRun | crates/daemon/src/shadow.rs:251-253 | an image missing at the mtime read leaves an entry without a recorded mtime, which is accepted whatever the image becomes |
| SnapshotTheorems.AcceptedExact | crates/daemon/src/shadow.rs:65-83 | an entry without a recorded mtime is accepted for every image; one with it is refused exactly when the image can be read and has another |
| SnapshotRuns.LeftoverRun | crates/daemon/src/shadow.rs:238-248 | a shadow that fails after making its directory leaves it behind |
| SnapshotTheorems.StuckForever | crates/daemon/src/shadow.rs:139-161 | once a handle is registered without a shadow, no shadow for that key runs again in any continuation |
| SnapshotRuns.StuckRun | crates/daemon/src/shadow.rs:151-161 | that state arises when a shadow ends before its handle is inserted |
| ErofsCache.StepKeeps | crates/shim/src/instance.rs:598-645 | checks, locking, mkfs, rename, failures, retries and crashes keep the lock, file and caller invariants |
| ErofsCache.RunKeeps | crates/shim/src/instance.rs:333-350 | so does every run |
| ErofsCache.CacheSafety | crates/shim/src/instance.rs:598-645 | at most one caller per key is past the lock, a published image is complete and its key's own, at most one rename per key ever happens, every Ok return sees the image, and an error is returned only at the third attempt |
| ErofsCache.RenameMoves | crates/shim/src/instance.rs:641-642 | a successful rename publishes the finished file, removes the temporary name, touches no other file and frees the lock |
| ErofsCache.RetriesExact | crates/shim/src/instance.rs:333-350 | over every run a caller that returned an error failed exactly three times since its call, and any other caller exactly as often as it has tried again |
| ErofsCache.CachedNeverWaits | crates/shim/src/instance.rs:601-603 | a call that finds its image published never waits for the lock and never fails, whatever else happens |
| ErofsCache.PublishedForever | crates/shim/src/instance.rs:598-645 | a published image stays as it is in every continuation |
| ErofsCache.CrashFrees | crates/shim/src/instance.rs:609-620 | a crash of the lock's holder frees the lock |
| ImageKey.StableHashHex | crates/shim/src/instance.rs:648-655 | the loop computes the 128-bit FNV-1a hash in 32 hexadecimal digits |
| ImageKey.StepBijection | crates/shim/src/instance.rs:651-652 | for each byte the step is a bijection on 128-bit states with an explicit inverse |
| ImageKey.FromBack | crates/shim/src/instance.rs:650-653 | any number of steps can be undone |
| ImageKey.KeySuffixCancels | crates/shim/src/instance.rs:648-655 | two inputs with a common suffix share a key if and only if they share it without the suffix |
| ImageKey.OneByteKey | crates/shim/src/instance.rs:648-655 | inputs of equal length that differ in exactly one byte have different keys |
| ImageKey.Hex32RoundTrip | crates/shim/src/instance.rs:654-654 | the key has 32 lower-case digits from which the hash can be read back, so the rendering is injective |
| ImageKey.KnownHashes | crates/shim/src/instance.rs:648-655 | the published hash values of the empty input and of a single letter a |
| ImageKey.KnownKey | crates/shim/src/instance.rs:648-655 | the key of the empty input, digit by digit |
| NetlinkCodec.WalkRoundTrip | crates/common/src/netlink.rs:660-728 | the parsing walk visits exactly the attributes that were laid out, in order |
| NetlinkCodec.WalkRoundTripExact | crates/common/src/netlink.rs:660-728 | a list survives the round trip if and only if every attribute fits its 16-bit fields |
| NetlinkCodec.TreeRoundTrip | crates/common/src/netlink.rs:660-681 | an encoded tree of nested attributes reads back as itself |
| NetlinkCodec.LengthIsExtent | crates/common/src/netlink.rs:677-681 | a nested attribute's length field is its extent if and only if the extent fits 16 bits |
| NetlinkCodec.Le32Value | crates/common/src/netlink.rs:643-651 | reading a written 32-bit field gives the value modulo 2^32 |
| NetlinkCodec.ByteOrder | crates/common/src/netlink.rs:643-663 | little-endian fields, and a header with the length before the type |
| NetlinkBuild.NlHdrIs | crates/common/src/netlink.rs:653-658 | the four patches make up the message header and leave the rest |
| NetlinkBuild.PushNlaStr | crates/common/src/netlink.rs:665-675 | appends the string, its terminator and zeros to the next multiple of four; on an aligned buffer this is one whole attribute |
| NetlinkBuild.CloseNests | crates/common/src/netlink.rs:677-681 | closing a reserved header turns everything behind it into the children of one nested attribute and touches nothing before it |
| NetlinkBuild.AddRedirectFilter | crates/common/src/netlink.rs:355-424 | for all indices the message is the header, the tcmsg and the encoded filter tree; its length field is its length and its attributes read back as that tree |
| NetlinkBuild.FilterFits | crates/common/src/netlink.rs:355-426 | every nested length of the filter fits its field |
| NetlinkBuild.RedirectFields | crates/common/src/netlink.rs:384-413 | the leaves say: stolen packet, egress redirect to the destination, and a selector that matches everything |
| NetlinkBuild.TcFields | crates/common/src/netlink.rs:358-367 | the fixed part says: interface, no handle, ingress parent, all protocols |
| NetlinkBuild.RedirectShape | crates/common/src/netlink.rs:368-421 | the attribute tree with the kernel's numbers and names |
| NetlinkBuild.FilterHeader | crates/common/src/netlink.rs:423-424 | message type 44 with flags 0x605 and the sequence number |
| NetlinkParse.WalkStep | crates/common/src/netlink.rs:687-706 | one turn of the walk over a suffix of arbitrary bytes, by offset |
| NetlinkParse.WalkWhole | crates/common/src/netlink.rs:687-706 | the attributes that the loops visit by offset are those of the walk |
| NetlinkParse.ParseLinkNlas | crates/common/src/netlink.rs:683-709 | on arbitrary bytes the loop ends, stays in bounds and returns the name and address of the attributes it visits |
| NetlinkParse.LastOfMeans | crates/common/src/netlink.rs:693-704 | that is the last name and the last six-byte address |
| NetlinkParse.FindIpv4Nla | crates/common/src/netlink.rs:711-728 | on arbitrary bytes the loop ends, stays in bounds and returns the first matching address of the walk |
| NetlinkParse.FirstAddressMeans | crates/common/src/netlink.rs:719-724 | no earlier attribute carries an address of the wanted type |
| NetlinkParse.ParsesWhatWasWritten | crates/common/src/netlink.rs:683-728 | on attributes laid out by the writer both loops visit exactly those, so they return the last name and address and the first address written |
| NetlinkParse.AttributeTypes | crates/common/src/netlink.rs:683-728 | a name is attribute 3, a hardware address is attribute 1 with six bytes, an address needs four |
| NetlinkDump.TurnReads | crates/common/src/netlink.rs:105-118 | where a whole message lies, the loop takes exactly that message and goes on behind it, or ends with it |
| NetlinkDump.WalkDatagram | crates/common/src/netlink.rs:104-119 | the inner loop over one datagram |
| NetlinkDump.Dump | crates/common/src/netlink.rs:97-122 | the whole loop over a buffer that keeps stale bytes of earlier datagrams, up to the next datagram or a failing receive |
| NetlinkDump.HangsAtZeroLength | crates/common/src/netlink.rs:104-119 | on arbitrary bytes the inner loop never ends if and only if it visits a header of length zero that is neither DONE nor a nonzero error |
| NetlinkDump.CrashesAtCutError | crates/common/src/netlink.rs:111-112 | on arbitrary bytes the inner loop indexes out of bounds if and only if it visits an error header whose code would lie behind the buffer |
| NetlinkDump.DumpEndsExact | crates/common/src/netlink.rs:97-122 | on arbitrary datagrams the dump hangs, or indexes out of bounds, if and only if the first datagram that it does not drain has such a header, stale bytes included |
| NetlinkDump.ZerosHang | crates/common/src/netlink.rs:104-119 | sixteen zero bytes hang the dump |
| NetlinkDump.FullDatagramCrashes | crates/common/src/netlink.rs:111-112 | a message that fills the buffer up to its last 16 bytes, followed by an error header, crashes it |
| NetlinkDump.StandstillRepeats | crates/common/src/netlink.rs:115-118 | a turn that does not advance changes nothing at all, so it repeats for ever |
| NetlinkDump.DumpedReads | crates/common/src/netlink.rs:97-122 | where datagrams are cut and what they left in the buffer makes no difference to whole messages |
| NetlinkDump.DumpExact | crates/common/src/netlink.rs:97-122 | for datagrams of whole aligned messages the dump returns exactly the messages before the first DONE, in order, fails with the code of an error that comes first, and otherwise takes all and waits |
| NetlinkDump.MessageTypes | crates/common/src/netlink.rs:100-113 | type 3 ends the dump, type 2 with a nonzero code fails it, the buffer has 32768 bytes |
| Cidr.CidrRoundTrip | crates/daemon/src/api.rs:604-606 | splitting a printed CIDR recovers the address and the prefix |
| Cidr.NoPrefix | crates/daemon/src/api.rs:604-606 | without a readable prefix the guest gets /24 and there is no gateway; with one it gets that |
| Cidr.U32TextRoundTrip | crates/daemon/src/netns.rs:171-171 | a number is read back from its decimal form, with or without a plus sign, if and only if it fits 32 bits |
| Cidr.IpRoundTrip | crates/common/src/netlink.rs:233-235 | a printed address parses back to itself and contains no slash |
| Cidr.ParseIpExact | crates/daemon/src/netns.rs:170-170 | a string is accepted as an address if and only if it is exactly how that address is printed |
| Cidr.AndMask | crates/daemon/src/netns.rs:175-176 | masking off low bits is subtracting the remainder |
| Cidr.GatewayInSubnet | crates/daemon/src/netns.rs:168-179 | for prefixes 1 to 30 the gateway is host number 1 of the address's own subnet, neither network nor broadcast address, without overflow; it is the address itself if and only if that has host part 1 |
| Cidr.GatewayByNetwork | crates/daemon/src/netns.rs:175-177 | two addresses get the same gateway if and only if their network bits agree |
| Cidr.PrefixZero | crates/daemon/src/netns.rs:175-177 | with prefix 0 a checked build panics and an unchecked one answers the next address |
| Cidr.GatewayExact | crates/daemon/src/netns.rs:172-178 | for every prefix: none above 30, a panic only at 0 with checks, and host part 1 if and only if the prefix is not 0 or the address is 0.0.0.0 |
| Cidr.InferGatewayExact | crates/daemon/src/netns.rs:168-179 | on printed CIDRs the answer is that gateway, as a string that parses back to it |
| Cidr.GatewayDotted | crates/daemon/src/netns.rs:168-179 | for prefixes 24, 16 and 8 the gateway keeps the network's octets and ends in 1 |
| Cidr.GatewayExample | crates/daemon/src/netns.rs:166-167 | the documented example: 10.88.0.2/16 gives 10.88.0.1 |
| LogStream.RunKeeps | crates/agent/src/server.rs:260-289 | every run of appends, exits and polls keeps buffers growing and offsets chained |
| LogStream.OffsetsGrow | crates/agent/src/server.rs:260-289 | offsets never decrease |
| LogStream.NeverTwice | crates/agent/src/server.rs:277-282 | no position of either stream is delivered by two polls, and a delivered byte is the stream's byte there |
| LogStream.DeliveredIffNoGap | crates/agent/src/server.rs:277-283 | the answers put together are the stream as the last poll found it if and only if at each poll the stream was as long as the answered offset or has not grown since |
| LogStream.LongerIsWhole | crates/agent/src/server.rs:283-283 | a stream at least as long as the other at every poll is delivered with no gap |
| LogStream.GapRun | crates/agent/src/container.rs:498-554 | a shorter stream that grows after a poll loses bytes, and end of file may be answered before they arrive |
| LogStream.EofIffExited | crates/agent/src/server.rs:284-284 | a poll is answered with end of file if and only if the process exited before it |
| LogStream.NoBuffer | crates/agent/src/server.rs:285-287 | a container without a buffer answers end of file, no bytes and offset 0 |
| AgentModel.ContainerManager.DiscoverBlockDevice | crates/agent/src/container.rs:104-115 | some device of the scan that is not known yet becomes known and is returned, if there is one |
| AgentModel.ContainerManager.FinishCreate | crates/agent/src/container.rs:443-454 | a created container with the agent's pid |
| AgentModel.ContainerManager.StartContainer | crates/agent/src/container.rs:457-559 | an unknown container is an error; a known one runs with a new pid, log buffer and exit receiver |
| AgentModel.ContainerManager.DeleteContainer | crates/agent/src/container.rs:668-680 | only the container goes, its receiver and log stay |
| AgentModel.ContainerManager.MarkStopped | crates/agent/src/container.rs:711-716 | the container is stopped with this code, if it is known |
| AgentModel.ContainerManager.AdoptContainer | crates/agent/src/container.rs:686-704 | container, receiver and log move to the new id |
| AgentModel.RunKeeps | crates/agent/src/container.rs:443-716 | every run of operations keeps the links between the tables and the record of devices |
| AgentModel.RunningIsObserved | crates/agent/src/container.rs:443-559 | in every reachable state each container has a pid, and a running one has the exit receiver and the log buffer of its own process |
| AgentModel.AdoptMoves | crates/agent/src/container.rs:686-704 | in every reachable state adopt succeeds if and only if the container is known, never drops it, and leaves all other ids alone in all three tables |
| AgentModel.AdoptLoses | crates/agent/src/container.rs:686-704 | in every run an adoption loses a spawned process, so that no container has it any more, if and only if it is the process of the new id's own container, other than the adopted one |
| AgentModel.AdoptCounts | crates/agent/src/container.rs:686-704 | an adoption makes one container fewer if and only if the new id already names another one |
| AgentModel.AdoptOverRun | crates/agent/src/container.rs:686-704 | a reachable run: adopting onto a running container leaves no trace of its process in any table |
| AgentModel.AdoptAndBack | crates/agent/src/container.rs:686-704 | adopting to an id fresh in all three tables and back is the identity |
| AgentModel.DevicesDistinct | crates/agent/src/container.rs:104-115 | devices handed out over a run are pairwise distinct and none was there at boot; a scan finds nothing if and only if it shows only such devices |
| AgentModel.DeleteAnswers | crates/agent/src/container.rs:668-680 | in every run, once a wait has marked a known container, its delete answers its pid and the marked code; an unknown one answers 0 and 0 |
| AgentModel.StartKeepsCode | crates/agent/src/container.rs:443-484 | a container is created without an exit code and a start keeps the code that an earlier run left; a delete answers 0 while there is none |
| AgentModel.MarkExact | crates/agent/src/server.rs:151-195 | in every run, when a wait marks its result, a running container of the awaited process is stopped by it, under whatever id, if and only if the id that was waited for still names that process; a running container of another process is stopped if and only if that id by now names it |
| AgentModel.LostExitRun | crates/agent/src/server.rs:151-195 | a reachable run: an adoption between the two lock sections of a wait loses the exit |
| AgentModel.WrongStopRun | crates/agent/src/server.rs:151-195 | a reachable run: after a delete and a new start under the same id, the late mark stops the new, running process |

## Left out

- Hypervisor and process calls (crates/daemon/src/vm_lifecycle.rs): each is a step that succeeds or fails.
- Sockets, `setns`, ioctls and TAP devices: only the bytes sent and received are modelled.
- Generated protobuf code and the JSON client of the shim: message passing.
- The agent registry of the daemon and the proxied kill, wait and delete of single containers: they touch neither pool nor counts.
- OCI rewriting, mounts, overlayfs, crun and the inotify wait of the agent: foreign effects around the bookkeeping; failures leave the tables unchanged.
- `strip_kernel_ip`, `build_systemd_cgroup_path`, configuration and installer: would only add easy members.
- Other netlink requests (addresses, routes, link state): same layout functions, nothing new to prove.
- Timeouts and back-off delays: nondeterministic choice. The 600-second limit of a wait is one of the ways in which its mark can come early.
- Whether end of file means that all output was captured: it does not, see `LogStream.GapRun`.
- NetlinkParse.ParseLinkNlas: returns the bytes of name and address; lossy UTF-8 decoding and hexadecimal printing are not modelled.
- Overflow of the 64-bit CID and counter fields: they are unbounded here.
- A pid that is reused by another process, both for the agent's waits and in the image cache.
