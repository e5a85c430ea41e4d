# KodeWork protocols in Dafny

A model of the stateful protocols of KodeWork (an SSH workstation client) and proofs of what
they keep. One module per protocol:

| module | what it models |
|---|---|
| `Files`, `UploadSteps`, `Transfer` | one transfer: source that may be rewritten at any instant, resumable `.part`, chunk loop, identity checks, publication, retry loop |
| `RemotePath` | lease keys: `normalize_remote_path` and the remote home alias |
| `Leases` | the shared destination leases: enqueue, worker, delayed reaper, retry |
| `Publication` | all workers at once on one file system, under the leases |
| `ReplayBuffer`, `EventPump` | output before a pane subscribes, and the hand-over to live delivery |
| `Lifecycle`, `Fallback` | connection state and generation, guarded connect and disconnect, address fallback |
| `Resolver` | candidate deduplication and ordering |
| `Tunnel`, `TunnelRegistry` | accept loop, proxy tasks and concurrent closers of one tunnel; opening, closing one and closing a host's |
| `Prompts`, `KnownHosts`, `HostKeys` | approval prompts (host keys and keyboard-interactive, section 3.2 of RFC 4256), trusted keys, and both together |
| `DisconnectGate` | the renderer's per-workstation teardown chain |
| `Credentials` | the four credential commands over a database and a secret store |

Concurrent protocols are state machines. One action is one critical section, one atomic access or
one queue operation of the source; a run is any sequence of actions, an action that is not enabled
changes nothing, and theorems about `Exec(Init, run)` hold in every reachable state. Classes hold
the source's own fields, and beside them what the run model needs of the tasks around the object:
`workers`, `found` and `lookedUp` in `Leases`, `pump`, `history`, `unclaimed` and `sole` in
`EventPump`, `proxies` and `closers` in `Tunnel`, waiters in `Prompts`. Each method is proved equal
to the action (or function) it implements, so the theorems about runs are about them too. Transfers, the resolver, the connect
loop, the replay buffer and path normalisation are methods with the source's loops. An
`if *` or a parameter stands for what the program does not decide: an I/O failure, a cancel request,
the length of a read, a deadline. Failed accesses to files are counted (`Clock.faults`), so that a
result can be held to them.

## Hypotheses

- Upload and download integrity assume that every rewrite or replacement of the source shows in
  what the checks compare, namely length and modification time (`Source.Fresh`).
- Where an upload may resume, its path does not come to name another file (`Source.Pinned`). The
  first identity taken from the handle and the first taken from the path are never compared with
  each other; `Transfer.MixturePossibleIff` says exactly when a mixture of two files then passes
  the checks.
- No destination is another destination's `.part`. Leases cover destinations only;
  `Publication.AtomicIffSeparate` shows that this is exactly what atomic publication needs.
- A retry meets no unreleased or half-reaped worker of the same id, and no reaper checks while a
  retry has its lease but no worker yet (`Leases.Guarded`).
- File lengths fit 64 bits, an event's payload is at most `isize::MAX` bytes, and a rename or a
  database write happens whole or not at all. Generations, transfer ids and prompt ids do not wrap.
- The name an old local file is moved aside to is nobody's. The source builds it from process id and
  time; were it taken, that file would be overwritten.
- A connect future is not dropped half-way, nor a tunnel's close: one dropped after it has taken the
  accept task would let a later close drain before the accept loop has ended.

## What the code does not keep

- `Leases.RetryDuringReapSharesDestination`: a retry between the reaper's generation check and its
  clean-up loses its lease to the reaper; two workers then write one destination.
- `Leases.RetryOfQueuedSharesDestination`: a worker waiting for its permit has not set `running`,
  so a retry goes ahead beside it.
- `Publication.PartOfAnotherIsTruncated`: uploading to `q` empties a destination named `q.part`.
- `Transfer.ReboundPathCanMixVersions`: a path bound to another file between the two first identity
  readings lets a resumed upload publish bytes of both.
- `Lifecycle.StalePumpCanFlipNewSession`: `transition_for_generation` checks the generation and
  transitions in two steps; a pump caught between them takes a newer session to Reconnecting.
  `Lifecycle.OvertakingCanFlip` and `Lifecycle.StalePumpsAreInert` together say that a new generation
  coming between the two is exactly what it takes.
- `TunnelRegistry.SweepCanLoseTunnel`: a tunnel opened while its host's are being closed ends up open
  and in no registry. `TunnelRegistry.ForgetsOnlyNewcomers`: these are the only ones.
- `Resolver.HigherPrioritySortsFirst`: negating a priority of `i32::MIN` wraps (a build with overflow
  checks panics instead), so that address sorts first in its class, not last.
- `Credentials.FailedSaveCanDropOrphan`: a failed save deletes an unreferenced secret that an
  earlier failed delete had left at the same reference.
- `KnownHosts.ConcurrentSavesReplace`: two prompts for one endpoint, both answered "trust and save",
  leave only the second key; the write does not look again at what was read.
- `Prompts.DrainedPromptRefusesOwner`: a prompt taken by `drain_requests` can no longer be answered or
  cancelled through its owner, though it still waits.

## Model

| member | source | states |
|---|---|---|
| `Transfer.PrefixMatches` | crates/kodework-sftp/src/manager.rs:1004-1076 | while the source's name is stable, a positive answer means the leftover is byte for byte a prefix of that version, however reads are cut; a negative one means it is not, unless some read was cut short |
| `Transfer.ResumeOffset` | crates/kodework-sftp/src/manager.rs:662-679 | a non-zero offset is the whole leftover, no longer than the source and a prefix of it; such a leftover is kept unless some read was cut short |
| `Transfer.CopyChunk` | crates/kodework-sftp/src/manager.rs:695-712 | one round: a stop that was asked for is heeded before anything is read; what is read is appended; an empty read is the end of the file and no error |
| `Transfer.CopyChunks` | crates/kodework-sftp/src/manager.rs:690-722 | the bytes before the start stay; if the file did not change, the appended bytes are exactly the rest of it and the byte count is its length; nothing but the `.part` changes, by upload steps only; it fails only if an access did fail or a stop was asked for |
| `Transfer.UploadIntegrityIff` | crates/kodework-sftp/src/manager.rs:626-753 | whenever the checks before the rename pass, the published bytes are the opened file as it was from the first look to the last, if and only if nothing was resumed or the path's file agreed with it on the resumed prefix |
| `Transfer.UploadIntegrity` | crates/kodework-sftp/src/manager.rs:626-753 | so not resuming, or the path naming the opened file when first read, is enough |
| `Transfer.MixturePossibleIff` | crates/kodework-sftp/src/manager.rs:645-660 | for any binding of the path and any instants: some leftover makes all checks pass on bytes that are not the opened file's if and only if the path's file differs from it on a resumed prefix |
| `Transfer.ReboundPathCanMixVersions` | crates/kodework-sftp/src/manager.rs:649-661 | such a source exists: all checks pass on bytes that were never any file's contents |
| `Transfer.PublishUpload` | crates/kodework-sftp/src/manager.rs:724-753 | renames only with every check passed; the files are then exactly the renamed ones, else untouched; a lost reply is an error with the file published; any other error means an access failed, or the source was not what it was or not read whole |
| `Transfer.Upload` | crates/kodework-sftp/src/manager.rs:626-753 | from any leftover and any rewrites: Ok publishes bytes that passed all checks, an error leaves the destination as it was or published whole, nothing else changes; every error names its cause (a failed access, a stop, a missing or changed source); all it does to the files is a sequence of upload steps at a version the source had meanwhile |
| `Transfer.ReplaceLocalFile` | crates/kodework-sftp/src/manager.rs:888-922 | without a failed access the new file is in place and nothing else changed; one failure changes nothing; after two, final rename and restore, the old file is whole under a backup name |
| `Transfer.Download` | crates/kodework-sftp/src/manager.rs:755-868 | Ok publishes exactly the remote file as it was at every instant between the two stats; an error keeps the old local file and names its cause |
| `Transfer.AttemptTransfer` | crates/kodework-sftp/src/manager.rs:585-624 | at most one Transferring event, missing only when cancelled first; Ok leaves the destination a whole version the source had during the attempt, an error leaves it intact |
| `Transfer.LeavesChains` | crates/kodework-sftp/src/manager.rs:497-570 | a failed attempt followed by another leaves what one attempt over both their times may leave, so integrity survives retries |
| `Transfer.AttemptUntilDone` | crates/kodework-sftp/src/manager.rs:480-570 | at most retries+1 attempts, another only after a backend failure, giving up on one only with no retries left; Ok means a version the source had meanwhile |
| `Transfer.RunTransfer` | crates/kodework-sftp/src/manager.rs:458-583 | all of that for a whole run, and: with a sound source, no failed access and no stop asked for it succeeds; the events alternate Transferring and Retrying, one Transferring per attempt, and end in Completed, in Cancelled, or in the failure and Failed, as the result says; the running flag is cleared; the destination holds a version the source had during the run, or what it held |
| `Transfer.NoExcuseMeansOk` | crates/kodework-sftp/src/manager.rs:626-868 | an undisturbed source that can be transferred leaves only failed accesses and stops as reasons to fail |
| `Files.MapDiskErrorIs` | crates/kodework-sftp/src/manager.rs:1084-1089 | exactly backend failures whose message says no space is left become a full disk, nothing else changes |
| `Transfer.TransferControls.Reset` | crates/kodework-sftp/src/manager.rs:268-273 | a retry gets the full allowance of retries again and clears cancel, pause and count |
| `Files.PartPathInjective` | crates/kodework-sftp/src/lib.rs:99-101 | different destinations have different `.part` files, and none is its own |
| `RemotePath.Normalize` | crates/kodework-sftp/src/manager.rs:393-402 | both loops end and yield the canonical form: components joined by single slashes, no trailing slash |
| `RemotePath.ReplaceKeeps` | crates/kodework-sftp/src/manager.rs:395-397 | one non-overlapping replacement pass keeps the components and whether the path is absolute |
| `RemotePath.CollapsedIsCanonical` | crates/kodework-sftp/src/manager.rs:393-402 | a path without double or trailing slashes is its own canonical form |
| `RemotePath.CanonicalIsIdempotent` | crates/kodework-sftp/src/manager.rs:393-402 | normalising twice is normalising once |
| `RemotePath.SameKeyIffSameComponents` | crates/kodework-sftp/src/manager.rs:361-379 | two absolute paths share a lease key if and only if their component lists are equal |
| `RemotePath.HomeAliasSharesKey` | crates/kodework-sftp/src/backend.rs:114-129 | `~/x` and the same path below the home directory share a key |
| `RemotePath.ResolveIs` | crates/kodework-sftp/src/backend.rs:114-129 | what the alias stands for, to the letter |
| `RemotePath.TrimEndIs` | crates/kodework-sftp/src/backend.rs:124 | exactly the home directory's trailing slashes go |
| `Leases.KeepsExclusiveIffSafe` | crates/kodework-sftp/src/manager.rs:176-345 | from an exclusive state a step keeps exclusivity if and only if it is not a retry or a reaper's clean-up meeting an unreleased worker of the same transfer |
| `Leases.NoSharedDestination` | crates/kodework-sftp/src/manager.rs:192-198 | with exclusivity no two unreleased workers share a destination |
| `Leases.GuardedRunIsExclusive` | crates/kodework-sftp/src/manager.rs:176-345 | every guarded run, over managers sharing one registry, keeps each unreleased worker the owner of its lease |
| `Leases.GuardedRunFromInit` | crates/kodework-sftp/src/manager.rs:76-139 | so in every state reached from the start |
| `Leases.LateReaperSparesSuccessor` | crates/kodework-sftp/src/manager.rs:333-343 | in guarded runs a late reaper leaves every unreleased worker its lease |
| `Leases.ReapedIsForgotten` | crates/kodework-sftp/src/manager.rs:336-344 | in every run, guarded or not, no retry finds a transfer after its reaper has cleaned up |
| `Leases.RetryDuringReapSharesDestination` | crates/kodework-sftp/src/manager.rs:250-285 | a run in which a retry overlaps a reap and two workers run on one destination |
| `Leases.RetryOfQueuedSharesDestination` | crates/kodework-sftp/src/manager.rs:256-267 | a run in which a retry starts beside a worker that is still queued |
| `Leases.TransferManager.EnqueueInternal` | crates/kodework-sftp/src/manager.rs:176-199 | an invalid request, a missing key and a busy destination are refused with nothing changed; otherwise the lease is taken |
| `Leases.TransferManager.RegisterTransfer` | crates/kodework-sftp/src/manager.rs:200-219 | only then does a retry find the transfer |
| `Leases.TransferManager.ReleaseLease` | crates/kodework-sftp/src/manager.rs:385-391 | removes the lease only when it is this id's |
| `Leases.TransferManager.SpawnWorker` | crates/kodework-sftp/src/manager.rs:295-314 | the worker takes the next generation of its transfer |
| `Leases.TransferManager.SetRunning` | crates/kodework-sftp/src/manager.rs:467-479 | the running flag goes with the worker's phase |
| `Leases.TransferManager.ReleaseAfterRun` | crates/kodework-sftp/src/manager.rs:315-329 | is the release action of the run model |
| `Leases.TransferManager.ReapCheck` | crates/kodework-sftp/src/manager.rs:334-336 | goes on only with the newest generation and nothing running |
| `Leases.TransferManager.ReapClear` | crates/kodework-sftp/src/manager.rs:336-344 | forgets the transfer and frees only its own lease |
| `Leases.TransferManager.RetryLookUp` | crates/kodework-sftp/src/manager.rs:250-255 | succeeds exactly for a transfer in both maps |
| `Leases.TransferManager.AwaitIdle` | crates/kodework-sftp/src/manager.rs:256-267 | looks at the running flag at most 201 times while others act; goes on at the first look that finds it clear, gives up only if every look found it set |
| `Leases.TransferManager.RetryTakeLease` | crates/kodework-sftp/src/manager.rs:274-284 | refused exactly when another transfer holds the destination |
| `Publication.DisjointFiles` | crates/kodework-sftp/src/manager.rs:681-752 | two attempts under way share neither destination nor `.part` |
| `Publication.OtherPartsUntouched` | crates/kodework-sftp/src/manager.rs:681-752 | a worker's file step leaves every other worker's `.part` as it was |
| `Publication.UploadIsARun` | crates/kodework-sftp/src/manager.rs:681-752 | a running worker's upload steps, run here, do to the files what they do alone |
| `Publication.UploadRunsHere` | crates/kodework-sftp/src/manager.rs:626-753 | so whatever the upload method does to the files is a run of this machine, at a version its source really had |
| `Publication.RunKeepsDestinations` | crates/kodework-sftp/src/manager.rs:681-752 | in every reachable state each destination holds its last complete verified upload, else its original content |
| `Publication.AtomicIffSeparate` | crates/kodework-sftp/src/lib.rs:99-101 | that holds for a set of destinations in all guarded runs if and only if none of them is the `.part` of another |
| `Publication.PartOfAnotherIsTruncated` | crates/kodework-sftp/src/manager.rs:681-692 | otherwise a guarded run exists after which a destination holds neither |
| `ReplayBuffer.WindowIsLongestSuffix` | crates/kodework-core/src/session.rs:62-63 | the specification buffer is the longest suffix within 256 events and 256 KiB |
| `ReplayBuffer.TotalOfOne` | crates/kodework-core/src/session.rs:1942-1965 | each event counts once, by its payload or as one, and belongs to its channel |
| `ReplayBuffer.PushAllIsWindow` | crates/kodework-core/src/session.rs:1967-1982 | after any pushes the buffer is that suffix of the whole history |
| `ReplayBuffer.PendingPaneEvents.Push` | crates/kodework-core/src/session.rs:1955-1982 | the loop computes the suffix and the byte field stays the exact sum, saturating arithmetic never biting |
| `EventPump.ExactlyOnceDelivery` | crates/kodework-core/src/session.rs:550-573 | for any run, a subscription nobody else shares its filter with, and any continuation with the pump current and it open: received plus in flight is its replay followed by every matching event handled since, in order, none lost, none twice; and what arrived in the run is what was handled or still waits, in order |
| `EventPump.FirstSubscriberMissesOnlyTheOldest` | crates/kodework-core/src/session.rs:550-573 | a pane's first subscriber gets the longest fitting suffix of all its channel's earlier events and then all later ones |
| `EventPump.ReplayIsBoundedWindow` | crates/kodework-core/src/session.rs:550-573 | after any run the replay is the longest fitting suffix of the channel's events that came while no pane subscriber was open, told from the run alone, and never overflows the new queue |
| `EventPump.RunUnclaimed` | crates/kodework-core/src/session.rs:1846-1853 | in every run the pump buffers exactly those events |
| `EventPump.RunSees` | crates/kodework-core/src/session.rs:1831-1855 | a pump that stays current handles every event that arrives, in order |
| `EventPump.DeliveryIs` | crates/kodework-core/src/session.rs:1859-1922 | what one delivery does: the reliable target gets the event unless gone, a mirror if it has room, nobody else anything; missed mirrors are counted |
| `EventPump.PumpCanCatchUp` | crates/kodework-core/src/session.rs:1823-1922 | from every reachable state some run lets the pump handle and hand out all that has arrived |
| `EventPump.SubscriberSteps` | crates/kodework-core/src/session.rs:1838-1846 | what consuming, closing, a new generation and clearing do |
| `EventPump.StalePumpIsInert` | crates/kodework-core/src/session.rs:1831-1837 | once the generation moved on, whatever follows, the pump records at most the one admitted event and gives any subscriber at most that |
| `EventPump.StalePumpIsInertInEveryRun` | crates/kodework-core/src/session.rs:1823-1938 | the same from every reachable state |
| `EventPump.ActiveSession.Subscribe` | crates/kodework-core/src/session.rs:550-573 | drains and registers as the one atomic action of the model, no send finding the queue full |
| `EventPump.ActiveSession.RegisterEvent` | crates/kodework-core/src/session.rs:1838-1855 | the pump's critical section is that action of the model |
| `EventPump.ActiveSession.DeliverToNext` | crates/kodework-core/src/session.rs:1856-1922 | one delivery is that action; it waits only for a reliable subscriber with a full queue |
| `Lifecycle.LifecycleIsSafe` | crates/kodework-core/src/session.rs:439-543 | over all interleavings no requested transition is refused; with the guard free the state is at rest and Ready means the installed connection is current |
| `Lifecycle.TransitionsInto` | crates/kodework-domain/src/lib.rs:568-622 | the transition table told by what may come before each state |
| `Lifecycle.MarksMove` | crates/kodework-core/src/session.rs:603-612 | the supervisor's marks move exactly the states that allow it |
| `Lifecycle.LossIsNoticed` | crates/kodework-core/src/session.rs:1923-1936 | the current pump takes a Ready session to Reconnecting |
| `Lifecycle.OnlyLossArms` | crates/kodework-core/src/session.rs:1928-1931 | no other pump, and no other state, begins that |
| `Lifecycle.AnotherCandidate` | crates/kodework-core/src/session.rs:482-537 | a failed candidate gives way to the next |
| `Lifecycle.StalePumpFlipsIff` | crates/kodework-core/src/session.rs:264-279 | a passed generation's pump changes the state if and only if its check is behind it and the state is Ready or Failed |
| `Lifecycle.AtomicFlipsIff` | crates/kodework-core/src/session.rs:264-279 | runs in which no new generation overtakes a checked pump are exactly those in which every checked pump is current in every state passed through |
| `Lifecycle.StalePumpsAreInert` | crates/kodework-core/src/session.rs:1923-1938 | in such runs a passed generation's pump never changes the state |
| `Lifecycle.OvertakingCanFlip` | crates/kodework-core/src/session.rs:264-279 | every other run can go on, from a state it passed through, to one in which it does |
| `Lifecycle.CheckedPumpCanFlip` | crates/kodework-core/src/session.rs:1923-1938 | from any state with a checked pump a reconnect can follow after which that pump takes the new session down |
| `Lifecycle.StalePumpCanFlipNewSession` | crates/kodework-core/src/session.rs:264-279 | without that, a run in which an old pump takes a healthy newer session down |
| `Lifecycle.ConnectionStateController.Transition` | crates/kodework-core/src/session.rs:249-262 | moves exactly along the table, refuses with the current state otherwise |
| `Lifecycle.ConnectionStateController.TransitionForGeneration` | crates/kodework-core/src/session.rs:264-279 | a stale generation changes nothing |
| `Lifecycle.ConnectionStateController.InstallGeneration` | crates/kodework-core/src/session.rs:287-297 | generations never go back |
| `Fallback.Connect` | crates/kodework-core/src/session.rs:439-543 | walks the candidates to the first success or first decisive error and no further; exhaustion reports the last kind, a retryable one; every transition on the way is allowed |
| `Fallback.FirstDecisive` | crates/kodework-ssh/src/lib.rs:125-133 | the position of the first outcome that ends the walk |
| `Fallback.KindsOf` | crates/kodework-core/src/session.rs:137-166 | the errors each kind stands for, all of them |
| `Fallback.FallbackMatchesRetry` | crates/kodework-ssh/src/lib.rs:125-133 | an error lets the next address be tried exactly when its kind lets the next attempt be made |
| `Resolver.HigherPrioritySortsFirst` | crates/kodework-network/src/lib.rs:193-199 | in the sorted list, of two candidates of one score the higher priority comes first if and only if the lower is not the minimum integer |
| `Resolver.ScoreFollowsPreference` | crates/kodework-network/src/lib.rs:156-166 | scores put the five classes in the policy's order of preference, no two alike |
| `Resolver.StableSortIsStable` | crates/kodework-network/src/lib.rs:189-191 | the sort is a sorted permutation with ties in first-seen order |
| `Resolver.StableSortIsUnique` | crates/kodework-network/src/lib.rs:189-191 | those properties leave only one result, so any stable sort gives it |
| `Resolver.Merged` | crates/kodework-network/src/lib.rs:169-188 | the merge the loop is proved to compute: keys in first-seen order, each with its first proxied candidate, else its first |
| `Resolver.MergedIsUnique` | crates/kodework-network/src/lib.rs:169-188 | that description admits one list only |
| `Resolver.Deduplicate` | crates/kodework-network/src/lib.rs:168-191 | the in-place upgrade loop and the sort yield exactly that merge, stably sorted |
| `Resolver.DeduplicatedResult` | crates/kodework-network/src/lib.rs:168-191 | hence distinct keys, the same key set, the right winner for each, sorted by score and priority, stable |
| `Resolver.ConfiguredCandidates` | crates/kodework-network/src/lib.rs:125-146 | an error exactly when no address is enabled and permitted; else every permitted address as often as configured, without a proxy, sorted by policy, ties in configured order |
| `Resolver.UsableInOrder` | crates/kodework-network/src/lib.rs:129-141 | the filter picks all permitted addresses, in increasing positions |
| `Resolver.Candidates` | crates/kodework-network/src/lib.rs:94-103 | merges configured and all answering providers' candidates: an endpoint is in the result exactly if an enabled, permitted address or an answering provider has it, so a failing provider hides nothing |
| `Tunnel.CounterCountsGuards` | crates/kodework-core/src/tunnel.rs:53-64 | at every step the counter is the number of live proxy guards |
| `Tunnel.NothingLeftToDrain` | crates/kodework-core/src/tunnel.rs:166-192 | a closer with nothing left to join leaves no live proxy, even when a proxy removed its handle before it was inserted |
| `Tunnel.CloseDrainsForGood` | crates/kodework-core/src/tunnel.rs:146-193 | when any of several closes returns the counter was already zero and no later step registers a proxy or changes it |
| `Tunnel.TunnelRuntime.InsertConnection` | crates/kodework-core/src/tunnel.rs:322-325 | registering a handle also reaps finished ones |
| `Tunnel.TunnelRuntime.SpawnProxy` | crates/kodework-core/src/tunnel.rs:295-321 | counter, guard and task begin together |
| `Tunnel.TunnelRuntime.DropGuard` | crates/kodework-core/src/tunnel.rs:59-64 | the guard's drop takes one off the counter |
| `Tunnel.TunnelRuntime.RemoveOwnHandle` | crates/kodework-core/src/tunnel.rs:314-319 | a proxy's last step removes its own handle only |
| `Tunnel.TunnelRuntime.ReapFinishedConnections` | crates/kodework-core/src/tunnel.rs:380-384 | drops exactly the handles of finished proxies |
| `Tunnel.TunnelRuntime.BeginClose` | crates/kodework-core/src/tunnel.rs:161-170 | the token is cancelled, and the accept task waited for exactly when no earlier close took it |
| `Tunnel.JoiningCanGoOn` | crates/kodework-core/src/tunnel.rs:264-273 | from every reachable state in which a close waits for the accept loop, the loop can end |
| `Tunnel.CloseCanReturn` | crates/kodework-core/src/tunnel.rs:146-193 | from every reachable state some run leads any pending close to its return |
| `Tunnel.NewCloseCanReturn` | crates/kodework-core/src/tunnel.rs:146-193 | the same for a close only now called for |
| `Tunnel.ConnectionCanBeServed` | crates/kodework-core/src/tunnel.rs:273-326 | from every reachable listening state a connection can come to be counted, live and registered |
| `Tunnel.ReapedIs` | crates/kodework-core/src/tunnel.rs:380-384 | reaping leaves exactly the handles of unfinished proxies |
| `Tunnel.LoopEndsForAReason` | crates/kodework-core/src/tunnel.rs:270-346 | in every run the accept loop has ended only when cancelled, after a refused channel or after a failed accept |
| `Tunnel.ReturnedIsClosed` | crates/kodework-core/src/tunnel.rs:188-191 | in every run a returned close leaves the tunnel marked closed |
| `Tunnel.TunnelRuntime.DrainConnections` | crates/kodework-core/src/tunnel.rs:171-177 | takes every handle there is and leaves none |
| `Tunnel.TunnelRuntime.EndClose` | crates/kodework-core/src/tunnel.rs:184-193 | resetting the counter changes nothing in any reachable state |
| `TunnelRegistry.ForgetsOnlyNewcomers` | crates/kodework-core/src/tunnel.rs:196-229 | in every run, closing a host's tunnels forgets unclosed exactly those that entered the registry since its snapshot and are still unclosed |
| `TunnelRegistry.RetainDropsHost` | crates/kodework-core/src/tunnel.rs:216-228 | the final clean-up drops all of the host's entries and nobody else's, and closes nothing |
| `TunnelRegistry.CloseCloses` | crates/kodework-core/src/tunnel.rs:146-193 | a close asked for closes that tunnel and touches no other |
| `TunnelRegistry.LostForGood` | crates/kodework-core/src/tunnel.rs:146-156 | a tunnel forgotten with no close under way stays open whatever follows |
| `TunnelRegistry.SweepCanLoseTunnel` | crates/kodework-core/src/tunnel.rs:196-229 | a run that loses a tunnel this way |
| `TunnelRegistry.TunnelManager.CloseAllForHost` | crates/kodework-core/src/tunnel.rs:196-229 | with nothing in between, exactly the host's listed tunnels are closed and dropped, every other tunnel is as it was |
| `Prompts.AcceptedAtMostOnce` | crates/kodework-ssh/src/host_key.rs:342-357 | in every run at most one call is told its answer to a prompt was accepted |
| `Prompts.AcceptedOnlyFromOwner` | crates/kodework-ssh/src/host_key.rs:309-325 | an owner-scoped call is accepted only for that owner's prompt |
| `Prompts.OnlyDeliveredAnswersReturn` | crates/kodework-ssh/src/host_key.rs:456-474 | a waiter returns an answer only if some call delivered that answer to that id |
| `Prompts.GoneForGood` | crates/kodework-ssh/src/host_key.rs:243-254 | once a waiter ended, by answer, deadline or abort, nothing more is accepted for it; after its guard dropped the id is in neither table, ever |
| `Prompts.CancelOrphans` | crates/kodework-ssh/src/keyboard_interactive.rs:161-176 | cancelling drops the prompt's only sender |
| `Prompts.CancelledNeverAnswers` | crates/kodework-ssh/src/keyboard_interactive.rs:161-176 | in no continuation does a cancelled prompt return an answer |
| `Prompts.CancelledOnlyByOwner` | crates/kodework-ssh/src/keyboard_interactive.rs:237-241 | in every run a wait ends as cancelled only if a cancellation for its owner dropped the sender |
| `Prompts.WaiterWakes` | crates/kodework-ssh/src/host_key.rs:456-474 | the outcomes a waiting task can wake up with, and that nobody else notices |
| `Prompts.PromptCanEnd` | crates/kodework-ssh/src/host_key.rs:243-254 | from every state every prompt can come to its end |
| `Prompts.CallCanFinish` | crates/kodework-ssh/src/host_key.rs:342-357 | and so can every call |
| `Prompts.OwnersAreIsolated` | crates/kodework-ssh/src/host_key.rs:327-338 | any interleaving of one owner's calls leaves every other owner's prompt as it was |
| `Prompts.OwnerCanAlwaysAnswer` | crates/kodework-ssh/src/host_key.rs:298-325 | without draining, a prompt that still waits with its sender in the table accepts its owner's answer, whatever ran before |
| `Prompts.HiddenStaysHidden` | crates/kodework-ssh/src/host_key.rs:289-295 | a prompt no longer queued is never queued again, so draining ends owner-scoped access |
| `Prompts.DrainedPromptRefusesOwner` | crates/kodework-ssh/src/host_key.rs:289-295 | a run after which a waiting prompt with its sender in the table refuses its owner, then and in every continuation |
| `Prompts.AcceptedIff` | crates/kodework-ssh/src/host_key.rs:342-357 | an uninterrupted answer is accepted if and only if the ownership check passes, the sender is in the table and the waiter listens |
| `Prompts.Broker.Answer` | crates/kodework-ssh/src/host_key.rs:342-357 | the unscoped answer on the broker's fields is accepted exactly when it reaches the waiter |
| `Prompts.Broker.AnswerForOwner` | crates/kodework-ssh/src/host_key.rs:309-325 | the same as a call on the broker's fields, keeping its invariant |
| `Prompts.Broker.RejectForOwner` | crates/kodework-ssh/src/host_key.rs:327-338 | every queued prompt of the owner loses its sender, those still waited for hold the rejection, all other prompts are untouched |
| `Prompts.Broker.CancelForOwner` | crates/kodework-ssh/src/keyboard_interactive.rs:161-176 | exactly the owner's queued prompts leave both tables |
| `Prompts.Broker.Forget` | crates/kodework-ssh/src/keyboard_interactive.rs:244-251 | the guard's clean-up removes the id from both tables |
| `KnownHosts.EveryAcceptedKeyWasTrusted` | crates/kodework-ssh/src/host_key.rs:387-474 | from an empty store, in every interleaving, an accepted key was trusted in this verification, or was not asked about and is the same as one the user chose to save for the same host and algorithm, or endpoint (of a host's key also an endpoint that host was verified at) |
| `KnownHosts.KeepsPinsIff` | crates/kodework-ssh/src/host_key.rs:465-471 | a step keeps every record if and only if it does not write another key over one |
| `KnownHosts.PinnedForever` | crates/kodework-ssh/src/host_key.rs:387-474 | with one verification per slot at a time no run replaces a saved key |
| `KnownHosts.SavedKeyDecides` | crates/kodework-ssh/src/host_key.rs:407-434 | after a save, any later verification of the slot is decided without a prompt: the same key accepted, any other refused as changed |
| `KnownHosts.ConcurrentSavesReplace` | crates/kodework-ssh/src/host_key.rs:465-471 | two verifications open together, both saved: the first key is afterwards refused |
| `KnownHosts.VerifyForConnection` | crates/kodework-ssh/src/host_key.rs:387-474 | asks exactly when nothing is known, accepts exactly a matching key or a trusting answer whose write worked, names the store's failure otherwise, writes exactly on save or promotion and never over another key |
| `HostKeys.UnknownKeyNeedsItsOwnDecision` | crates/kodework-ssh/src/host_key.rs:407-474 | a key unknown when looked up gets a prompt, and in no continuation is it accepted without a call having delivered a decision to trust it to that very prompt |
| `HostKeys.UnknownKeyCanBeTrusted` | crates/kodework-ssh/src/host_key.rs:436-474 | and from every reachable state it can come to be accepted, once or saved for its scope |
| `HostKeys.AcceptedKeysWereApproved` | crates/kodework-ssh/src/host_key.rs:387-474 | in every interleaving from an empty store: an accepted key that was asked about has such a call for its own prompt; any other has a call that delivered a decision to save the same key to the prompt of another verification in the same scope; a call made for a workstation is for the prompt's owner |
| `KnownHosts.MemoryKnownHosts.LookupForHostMatchAlgorithm` | crates/kodework-ssh/src/host_key.rs:196-219 | a host's own record of the algorithm first, then the endpoint's if of that algorithm |
| `KnownHosts.LookupIs` | crates/kodework-ssh/src/host_key.rs:196-219 | which record decides a verification, told from the two tables |
| `KnownHosts.JudgeIs` | crates/kodework-ssh/src/host_key.rs:407-434 | when a key is asked about, changed, or copied from its endpoint to its host, told from the two tables |
| `KnownHosts.VerificationEnds` | crates/kodework-ssh/src/host_key.rs:456-474 | what each decision, and each write that works or fails, makes of a verification |
| `DisconnectGate.OneAtATimeInOrder` | src/runtime/hostDisconnectGate.ts:21-30 | a running operation is the only one of its host, and all earlier ones and its connect have settled |
| `DisconnectGate.AwaitPendingCoversAll` | src/runtime/hostDisconnectGate.ts:59-61 | no entry means all settled; an entry's settling means all earlier operations settled |
| `DisconnectGate.TeardownWaitsForTrackedConnect` | src/runtime/hostDisconnectGate.ts:36-57 | for any steps before, between and after: a teardown runs only after the newest connect tracked for its host has settled |
| `DisconnectGate.HostsAreIndependent` | src/runtime/hostDisconnectGate.ts:15-19 | an operation whose host's earlier ones have settled can start, whatever other hosts do |
| `DisconnectGate.CanSettle` | src/runtime/hostDisconnectGate.ts:21-30 | every operation can come to its end once earlier ones and its connect do |
| `DisconnectGate.HostCanBeForgotten` | src/runtime/hostDisconnectGate.ts:25-41 | from every reachable state some run leaves a host neither operation nor connect |
| `DisconnectGate.HostDisconnectGate.EnqueueTeardown` | src/runtime/hostDisconnectGate.ts:50-57 | is the teardown action of the run model |
| `DisconnectGate.HostDisconnectGate.Track` | src/runtime/hostDisconnectGate.ts:36-43 | remembers the newest connect of the host |
| `DisconnectGate.HostDisconnectGate.ReleaseTracked` | src/runtime/hostDisconnectGate.ts:38-41 | forgets a settled connect only when it is still the remembered one |
| `DisconnectGate.HostDisconnectGate.AwaitPending` | src/runtime/hostDisconnectGate.ts:59-61 | hands out the tail of the host's chain |
| `DisconnectGate.HostDisconnectGate.ReleaseOperation` | src/runtime/hostDisconnectGate.ts:25-28 | clears the entry only when it is still this operation's |
| `Credentials.AlwaysConsistent` | src-tauri/src/commands.rs:114-396 | after any commands, failing anywhere, every stored reference is the host's own, of its mode's kind, and has a secret |
| `Credentials.NeverOrphans` | src-tauri/src/commands.rs:114-396 | while deletes work no secret is unreferenced |
| `Credentials.FailedPasswordSaveRestoresIff` | src-tauri/src/commands.rs:307-392 | a failed password save with a working rollback restores both stores if and only if the reference was the host's already or held nothing |
| `Credentials.FailedTailscaleSaveRestoresIff` | src-tauri/src/commands.rs:931-1008 | the same for the Tailscale key |
| `Credentials.FailedSaveRestoresWithoutOrphans` | src-tauri/src/commands.rs:307-392 | so where there are no orphans a failed save always restores both stores exactly |
| `Credentials.FailedSaveCanDropOrphan` | src-tauri/src/commands.rs:358-370 | a reachable state in which it does not |
| `Credentials.AppState.SaveHost` | src-tauri/src/commands.rs:114-216 | stores what was submitted with the references the host had where the mode is the same, none for a new host; secrets no longer referred to go, everything else stays; a failure changes nothing |
| `Credentials.AppState.SaveHostPassword` | src-tauri/src/commands.rs:307-392 | success stores the given password under the host's reference for its mode and changes nothing else in the host, other hosts or their secrets; failure leaves all hosts; it succeeds exactly when every access works and the mode takes a password |
| `Credentials.AppState.SaveTailscaleAuthKey` | src-tauri/src/commands.rs:931-1008 | likewise for the Tailscale key, enabling the section and keeping its settings |
| `Credentials.AppState.DeleteHost` | src-tauri/src/commands.rs:219-301 | the host and its secrets go, everything else stays; a host with run history stays with everything |

## Left out

- `Transfer.ResumeOffset`: a matching leftover may be discarded when a read is cut short, because short reads on the two sides need not line up and then count as a mismatch.
- Progress is possibility: lemmas named `Can` give a run that gets there, not that every run does.
- `EventPump.ExactlyOnceDelivery`: for one pump and a subscriber with no other open one on its filter; further subscribers of a filter are best-effort mirrors in the code.
- `Prompts.OnlyDeliveredAnswersReturn`: no converse, because the deadline can win after an answer was delivered.
- `Publication.UploadRunsHere`: one upload's steps with nobody at its own files meanwhile, which the leases ensure; downloads are not run there, because replacing a local file is not one step on Windows.
- `Fallback.Connect`: alone on its controller; interleavings are in `Lifecycle`.
- `Credentials.AlwaysConsistent`: commands run one after another and a secret can be read exactly when it is present; host validation is a flag.
- Cancelling a paused transfer: the pause wait looks only at the pause flag, so no end is claimed.
- Joining tunnel tasks and closing a host's tunnels is modelled in any order, not the source's; in `TunnelRegistry` the close of one tunnel is two steps, its inside is `Tunnel`.
- SFTP messages on the wire, `russh` and `tokio` internals, SQLite and the OS credential store: bounded queues, one-shot cells, byte sequences and maps stand for them.
- Dropped connect futures, lock poisoning, task panics, wrap-around of 64-bit counters and wiping of secrets.
- Wall-clock effects: speed window, progress throttling and the progress events; a deadline is a step that may happen.
- The limit of 32 keyboard prompts, the rules of request validation (its verdict is a flag), `normalize_local_path`, `reconnect_backoff`, address and path validators: one branch each.
- Reference cleanup of a jump host's credential: the four commands never create such a reference, so it stays absent.
- The limit of one reconnect attempt per host: `disconnect_host` clears the marker while an attempt may still be unwinding.
- The event replay of `crates/kodework-local-pty`: order across replay and live output is not kept there.
- Run history, remote scripts, panes' input, tmux, Herdr and Yazi.
- User interface: React components, i18n, themes, terminal rendering, tray, updater, autostart.
