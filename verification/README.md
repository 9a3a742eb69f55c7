# retracker: forwarding jobs, wire formats and peer aggregation

retracker is a BitTorrent tracker. It answers announces from its own peer store, forwards them to other
trackers ("upstreams", configured as forwarders), and mixes the peers those trackers report into its own
answers. This project models three parts of it in Dafny 4.11 and proves what they promise.

**The forwarding-job lifecycle** (`Lifecycle*.dfy`, with its data in `StoreModel.dfy`, `CacheModel.dfy` and
`ScheduleModel.dfy`). Five structures, each under its own lock, share one protocol: the peer and session store, the
upstream cache, the pending-marker map, the bounded queue and the schedule. `Lifecycle.State` holds all five together
with the local variables of every thread: announce handlers sending jobs, workers, the scheduler and `Stop`. One
`Action` is one critical section, so a run of actions is an interleaving of critical sections.
`LifecycleInvariant.Inv` and `Named` are proved inductive action by action (`LifecycleSteps.dfy` and
`LifecycleBatches.dfy`, both over the two shapes of change in `LifecycleMoves.dfy`, and `LifecycleNamed.dfy`).
`LifecycleRuns.dfy` lifts them to all finite runs, `LifecycleEffects.dfy` says what single sections do to what readers
see, `ReadyJobs.dfy` follows a ready job and `SelectionRuns.dfy` an announce handler through a run, whatever the other
threads do in between. A session is the number of a peer context; a marker is the identity of one `announceJobState`
with the session it carries. Jobs move between *holders* (queue, schedule slot, worker, announce handler, the
scheduler's two batches), and every fact about markers is stated once for all holders.

The code that updates those structures is modelled beside it in the code's own form: `PeerStorage.Storage`,
`ForwarderCache.ForwarderStorage`, `ForwarderQueue.ForwarderManager` (in-place slice compaction, the text-keyed
marker map, the scheduler tick, ready-job processing, retry installation) and
`AnnounceQueueing.QueueEligibleAnnounces`. Their methods are proved equal to the functions that the state machine
applies. `JobKeys.dfy` connects the text keys of the marker map with structured keys, `TickModel.dfy` says what a
tick conserves, `Selection.dfy` says why the choice of forwarders is optimal, `TokenBucket.dfy` bounds the limiter
from above and below.

**The UDP and compact wire formats and the UDP client's loops** (`Wire.dfy`, `UdpRequest.dfy`, `UdpReply.dfy`,
`CompactPeers.dfy`, `UdpClient.dfy`). The repository has a printer and a separately written parser for the announce
request and reply of the UDP tracker protocol (BEP 15), and for the compact lists of BEP 23 and BEP 7. The client's
network is a script: what each attempt of a retry loop sees.

**Peer aggregation** (`PeerFilter.dfy`, `PeerCount.dfy`): the peers a reply lists, and the seeder and leecher
counts of announces and scrapes, for every iteration order of Go's maps.

Three properties one would expect hold only under a condition, and each is settled exactly:

- Re-encoding decoded compact lists moves an IPv4 address that arrived in 16 bytes from `peers6` to `peers`.
  `CompactPeers.ReencodeIsExactIff` gives the condition.
- The key scan in `cancelPendingJobs` asks for a key strictly longer than prefix and suffix, so it never matches
  the forwarder with an empty name, and a marker of that forwarder could outlive its job if the job were deferred
  and then cancelled. `UnnamedForwarder.LeakIsRun` is such a run and `UnnamedForwarder.LeaksIffAnswered` shows
  that nothing else leaks a marker. The shipped HTTP client never lets it happen: a forwarder without a name has an
  empty URI too (common/forwards.go:16-25), no request to that URI gets an answer, and only an answer defers a job.
  In every run without such a deferral no marker of any forwarder leaks (`LifecycleRuns.MarkerHasOneJob`).
- Which of seeders and leechers an address adds to depends on the map's order if and only if a seeder and a
  leecher share that address (`PeerCount.SplitIsFixedIff`); the total never does.

Times are integer nanoseconds; the clock is an input that never goes back. Unbounded integers are cut to the source's
widths where bytes are written (`BE`, `% 0x1_0000`, `ToInt32`). `net.ParseIP` and `net.IP.String` are parameters of
the modules that need them; `Addresses.Net.Sound` lists what is assumed of them, and `Addresses.SoundIsPossible`
shows that it can be met.

`dafny verify dfyconfig.toml` checks the project.

## Model

| member | source | states |
|---|---|---|
| StoreModel.UpdateKeeps | internal/server/storage.go:46-66 | an announce leaves its peer stored with a current session, the one it had or else a new one, and keeps the store's invariant |
| StoreModel.UpdateStores | internal/server/storage.go:46-54 | the request replaces that peer's old one and no other peer's |
| StoreModel.DeletePeerKeeps | internal/server/storage.go:75-90 | deleting a peer ends its session, leaves no empty hash, and no cached hash without a local peer |
| StoreModel.StopPeerKeeps | internal/server/receiverAnnounce.go:154-163 | the locked section of a stopped event keeps the invariant: the peer and its session are gone, every cached hash still has a peer |
| StoreModel.PurgeKeeps | internal/server/storage.go:126-143 | a purge removes exactly the aged peers, ends their sessions, and keeps the invariant |
| StoreModel.CloseKeeps | internal/server/storage.go:256-267 | cancelling all sessions, and then clearing them, keeps the invariant |
| StoreModel.UpdateSessions | internal/server/storage.go:46-66 | an announce leaves every other peer's session alone, and a session created after closing is born ended |
| StoreModel.DeleteSparesCache | internal/server/storage.go:75-90 | the cached upstream answers of a hash that keeps a local peer survive the deletion of another |
| StoreModel.StopSparesCache | internal/server/receiverAnnounce.go:154-163 | and a stopped event: the cache is cleaned after the last peer only |
| StoreModel.StopIsLocal | internal/server/receiverAnnounce.go:154-163 | a stopped event leaves the cache of every other hash, and removes that of its own exactly if no local peer is left |
| StoreModel.PurgeSparesCache | internal/server/storage.go:126-143 | a purge leaves the cache of every hash that keeps a peer |
| StoreModel.DeleteIsLocal | internal/server/storage.go:75-90 | deleting a peer changes no other peer's request or session, and ends no other session |
| StoreModel.PurgeIsByAge | internal/server/storage.go:126-143 | a purge removes the peers announced longer ago than the age and ends their sessions; all others keep request and session |
| StoreModel.ClosedForGood | internal/server/storage.go:256-267 | closing ends every session issued before and every one issued after, and keeps the requests |
| PeerStorage.Storage.Update | internal/server/storage.go:46-66 | the store becomes the updated one and the peer's session is returned; a session created after shutdown is ended from the start |
| PeerStorage.Storage.DeleteLocked | internal/server/storage.go:75-90 | store and cache become those of the deletion, nothing else changes |
| PeerStorage.Storage.HandleStopped | internal/server/receiverAnnounce.go:154-167 | store and cache after a stopped event, and the ended session whose jobs are to be cancelled; the cache of every hash that keeps a peer, and of every other hash, stays |
| PeerStorage.Storage.PeerContext | internal/server/storage.go:92-96 | a session is found exactly for peers that have one, and it is live while the store is open |
| PeerStorage.Storage.PurgeExpired | internal/server/storage.go:126-143 | deleting from the maps while ranging over them, in any order, is the purge of all aged peers at once |
| PeerStorage.Storage.Close | internal/server/storage.go:256-267 | every session ends and is forgotten |
| ForwarderCache.ForwarderStorage.UpdatePeers | internal/server/forwarderStorage.go:82-99 | one entry is replaced, with the next announce an interval from now |
| ForwarderCache.ForwarderStorage.GetAllPeers | internal/server/forwarderStorage.go:101-114 | the peers of the entries unexpired when the loop comes to them, for some order of the forwarders |
| ForwarderCache.ForwarderStorage.Prune | internal/server/forwarderStorage.go:126-145 | the two loops that delete while ranging drop exactly the expired entries without a running cooldown, empty the expired ones with one, and leave no empty hash |
| ForwarderCache.ForwarderStorage.DeferAnnounce | internal/server/forwarderStorage.go:148-161 | the entry's cooldown is raised to the requested instant if that is later; the instant left is returned |
| ForwarderCache.ForwarderStorage.ShouldAnnounceNow | internal/server/forwarderStorage.go:196-212 | a forwarder is due if it has no entry, no next announce, or one that is not in the future |
| ForwarderCache.ForwarderStorage.GetAnnounceState | internal/server/forwarderStorage.go:216-229 | whether there is an entry, and its next announce |
| ForwarderCache.ForwarderStorage.HasInfoHash | internal/server/forwarderStorage.go:231-236 | a hash is present exactly when some forwarder has an entry for it |
| ForwarderCache.ForwarderStorage.Cleanup | internal/server/forwarderStorage.go:238-242 | the hash is removed |
| ForwarderCache.PruneKeepsPeers | internal/server/forwarderStorage.go:101-145 | every answer a later reader can get without pruning, it can get with it, in the same order |
| ForwarderCache.PruneAddsNoAnswer | internal/server/forwarderStorage.go:101-145 | and every answer possible after pruning was possible without it |
| ForwarderCache.PruneKeepsDue | internal/server/forwarderStorage.go:126-145 | pruning never changes when a forwarder is due |
| ForwarderCache.DeferPreserves | internal/server/forwarderStorage.go:148-161 | a deferral changes no cached peer, lowers no cooldown, and returns the later of request and existing cooldown |
| ForwarderCache.AnswerIs | internal/server/forwarderStorage.go:101-123 | a reader gets exactly the peers of forwarders that answered less than the maximum age before it came to them |
| ForwarderCache.UpdateIsRead | internal/server/forwarderStorage.go:82-123 | after a result is stored, every answer a reader can get contains the reported peers, whole and in order, until they expire |
| ForwarderCache.UpdateSetsDue | internal/server/forwarderStorage.go:82-99 | and the forwarder is due again exactly from its interval on |
| ForwarderCache.UpdateIsLocal | internal/server/forwarderStorage.go:82-99 | and every other entry is as before |
| ForwarderCache.PruneReclaims | internal/server/forwarderStorage.go:126-145 | after pruning an entry has fresh peers, or a running cooldown and no peers |
| ForwarderCache.DisableForgets | internal/server/forwarderManager.go:618-625 | disabling a forwarder removes its entries and nobody else's |
| LifecycleInvariant.InitInv | internal/server/forwarderManager.go:147-256 | a fresh server satisfies the invariant |
| LifecycleBatches.StepInv | internal/server/forwarderManager.go:280-1386 | every critical section of every thread keeps the invariant: one place per job, marker ownership, no leaked marker (of the unnamed forwarder: while none of its jobs was deferred), unique schedule, punctual retries, shared hash lifetime |
| LifecycleNamed.StepNamed | internal/server/forwarderManager.go:1339-1362 | while no job without a forwarder name was deferred, every critical section keeps the schedule, the ready and the cancelled jobs free of such jobs |
| LifecycleRuns.RunInv | internal/server/forwarderManager.go:280-1386 | both invariants hold in every state of every run |
| LifecycleRuns.OneLiveJobPerKey | internal/server/forwarderManager.go:1092-1131 | at most one job of a live session that still claims its marker exists per hash, forwarder and peer, wherever it is, and it owns the marker, until Stop discards the markers |
| LifecycleRuns.MarkerHasOneJob | internal/server/forwarderManager.go:426-433 | every marker belongs to exactly one job still in the system; for the unnamed forwarder, in runs that defer none of its jobs |
| LifecycleRuns.DrainedLeavesNoMarker | internal/server/forwarderManager.go:426-433 | when no job is left, no marker is left; after a deferral of the unnamed forwarder, at most markers of it |
| LifecycleRuns.NothingRecorded | internal/server/forwarderAnnounce.go:395-455 | the record of deferrals is set only by a deferral of the unnamed forwarder |
| LifecycleRuns.EndedStaysEnded | internal/server/storage.go:46-90 | no step of any run revives an ended session |
| LifecycleRuns.WritesAreCurrent | internal/server/forwarderAnnounce.go:271-281 | a cache write for a job happens only while the job's session is its peer's current one and never ended before, so jobs from before a stop or expiry never touch a restarted peer's cache |
| LifecycleRuns.OnlyWritersWrite | internal/server/forwarderAnnounce.go:198-265 | no other action adds or changes a cache entry; it can only remove one or drop its peers |
| LifecycleRuns.SharedHashLifetime | internal/server/storage.go:75-90 | every cached hash has a local peer and an entry, no inner map is empty, and every live session is current and stored |
| LifecycleRuns.NoRetryRunsEarly | internal/server/forwarderManager.go:464-470 | an executing job started no earlier than its scheduled time, which is no earlier than the instant its upstream asked for |
| LifecycleRuns.DeferralWaits | internal/server/forwarderManager.go:1322-1337 | a deferral schedules the retry at the later of the requested delay and the running cooldown, and stores that as the cooldown |
| LifecycleRuns.ScheduleIsUnique | internal/server/forwarderManager.go:1369-1386 | at most one job per hash and forwarder is scheduled over all slots, filed under its own time |
| ReadyJobs.ReadyJobFate | internal/server/forwarderManager.go:1233-1275 | in every run, whatever happens between the checks: a ready job leaves into the queue, or to a time strictly later than its tick and its old time, or is given up, and then its session ended, or the manager stops, or a duplicate was scheduled when its move was refused |
| ReadyJobs.RefusedBefore | internal/server/forwarderManager.go:1249-1272 | a live job marked for giving up was refused by an earlier Move of the same round, at which its upstream had a scheduled job |
| ReadyJobs.AdmittedBefore | internal/server/forwarderManager.go:1233-1247 | in every run a job pushed to the queue was admitted earlier in its round: its session live, the manager running, its forwarder not suspended |
| ReadyJobs.UninterruptedFate | internal/server/forwarderManager.go:1233-1275 | the same for the uninterrupted call that ProcessScheduledReadyJob computes |
| LifecycleRuns.StoppedForGood | internal/server/forwarderManager.go:280-313 | once Stop has returned, queue, schedule, markers, workers and handlers are empty in every later state |
| LifecycleEffects.PublishEffect | internal/server/forwarderAnnounce.go:198-281 | a result for a live session while running is seen by every reader until it expires, sets the next announce to its interval from now, and touches no other entry |
| LifecycleEffects.RefusedWrite | internal/server/forwarderAnnounce.go:271-281 | for an ended session, or when stopping, neither a result nor a deferral writes |
| LifecycleEffects.StopEventEffect | internal/server/receiverAnnounce.go:154-163 | a stopped event spares the cache of other hashes, and of its own while a peer is left |
| LifecycleEffects.ExamineEffect | internal/server/forwarderManager.go:456-474 | a worker drops a job of an ended session, sends back one before its time, and executes every other |
| LifecycleEffects.ScheduleEarlyEffect | internal/server/forwarderManager.go:464-470 | an early job goes to the end of its slot exactly if its session lives, the manager runs and its upstream has no scheduled job; else it is finished with |
| LifecycleEffects.InstallRetryEffect | internal/server/forwarderManager.go:1339-1362 | a retry is scheduled at the end of its cooldown with a marker of its own under the same conditions; else markers and schedule stay |
| LifecycleEffects.EnterEffect | internal/server/forwarderManager.go:1233-1260 | a ready job is given up after its session or while stopping, moved to the end of a running suspension, or a second on if it ends now, else pushed |
| LifecycleEffects.PushEffect | internal/server/forwarderManager.go:1262-1275 | a pushed job joins the end of the queue; a full queue sends it back for ten seconds |
| LifecycleEffects.CancelEffect | internal/server/forwarderAnnounce.go:630-667 | cancelling takes exactly the jobs and markers of that peer and session, but for markers of the unnamed forwarder |
| UnnamedForwarder.LeakIsRun | internal/server/forwarderAnnounce.go:630-667 | why the hypothesis about deferrals is needed: a run of the model, not of the shipped client, in which a deferred and cancelled job of the unnamed forwarder leaves its marker behind |
| UnnamedForwarder.LeakNeedsDeferral | internal/server/forwarderAnnounce.go:630-667 | an orphaned marker belongs to the unnamed forwarder, one of whose jobs was deferred earlier in the run |
| UnnamedForwarder.LeaksIffAnswered | common/forwards.go:16-25 | markers of a forwarder can be orphaned if and only if its name is empty and a tracker with an empty URI can ask for a retry |
| TickModel.PickIsFilter | internal/server/forwarderManager.go:1197-1210 | compacting a slot keeps exactly the jobs with a fate, in slot order |
| TickModel.GatherLocates | internal/server/forwarderManager.go:1193-1216 | for every order of visiting the slots, each job of the schedule with a fate is gathered exactly once |
| TickModel.TickConserves | internal/server/forwarderManager.go:1193-1221 | cancelled, ready and kept jobs together are the scheduled jobs: none lost, none doubled |
| TickModel.TickSorts | internal/server/forwarderManager.go:1193-1221 | cancelled are exactly the scheduled jobs of ended sessions, ready the others in slots whose time has come, left in the schedule the others in later slots |
| TickModel.OthersIsFilter | internal/server/forwarderAnnounce.go:652-659 | cancelling in a slot keeps exactly the other peers' and sessions' jobs, in order |
| TickModel.CancelSorts | internal/server/forwarderAnnounce.go:652-659 | each slot keeps exactly the jobs not of that hash, peer and session |
| TickModel.CancelledMarkers | internal/server/forwarderAnnounce.go:633-650 | exactly the named forwarders' markers of that hash, peer and session go |
| JobKeys.HexInjective | internal/server/forwarderManager.go:403-405 | hexadecimal text identifies the bytes |
| JobKeys.TextInjective | internal/server/forwarderManager.go:403-405 | distinct hash, forwarder and peer give distinct keys, colons in forwarder names included |
| JobKeys.ScanIsExact | internal/server/forwarderAnnounce.go:633-645 | the length, prefix and suffix test matches exactly the keys of that hash and peer, except those of the unnamed forwarder |
| JobKeys.RepresentsLookup | internal/server/forwarderManager.go:426-433 | looking up a text key is looking up the structured key |
| ForwarderQueue.CompactSlot | internal/server/forwarderManager.go:1197-1211 | in place: jobs of ended sessions returned as cancelled, the others as ready in a slot whose time has come, else kept at the front in order; the tail cleared |
| ForwarderQueue.CompactOthers | internal/server/forwarderAnnounce.go:652-659 | in place: the other jobs first and in order, the tail cleared |
| ForwarderQueue.ScannedMarkers | internal/server/forwarderAnnounce.go:633-650 | deleting the scanned text keys cancels that peer's and session's markers |
| ForwarderQueue.ForwarderManager.FinishJob | internal/server/forwarderManager.go:426-433 | the marker goes only if this job still owns it |
| ForwarderQueue.ForwarderManager.ScheduleJob | internal/server/forwarderManager.go:1369-1386 | refuses ended sessions, shutdown and duplicates in any slot, else appends to the slot of the job's time |
| ForwarderQueue.ForwarderManager.CancelPendingJobs | internal/server/forwarderAnnounce.go:630-667 | markers and schedule lose exactly the jobs of that peer and session (markers of the unnamed forwarder excepted) |
| ForwarderQueue.ForwarderManager.SchedulerTick | internal/server/forwarderManager.go:1193-1221 | for the visited order, tables and batches are those of the lifecycle's Tick; by session and slot time, who is cancelled, ready and left |
| ForwarderQueue.ForwarderManager.GetSuspendedUntil | internal/server/forwarderManager.go:642-655 | a suspension that is over is forgotten, a running one is reported |
| ForwarderQueue.ForwarderManager.ProcessScheduledReadyJob | internal/server/forwarderManager.go:1233-1275 | an uninterrupted call is the lifecycle's sequence for a ready job, to which ReadyJobFate applies |
| ForwarderQueue.ForwarderManager.InstallRetry | internal/server/forwarderManager.go:1347-1362 | a scheduled retry takes over the marker; a refused one leaves the markers as they were |
| Selection.ServedCount | internal/server/forwarderManager.go:1133-1149 | the loops serve exactly as many distinct names as limit, free capacity and candidates allow |
| Selection.ServedOptimal | internal/server/forwarderManager.go:1133-1149 | no candidate left out is preferred to one served |
| Selection.CandidatesAre | internal/server/forwarderManager.go:1042-1083 | the candidates of a group are exactly the eligible forwarders of it, in shuffled order |
| Selection.SortDueSorts | internal/server/forwarderManager.go:1085-1090 | the due forwarders are a permutation, most overdue first |
| Selection.SortIsDetermined | internal/server/forwarderManager.go:1085-1090 | any sorted permutation is the same list, so the sorting algorithm does not matter |
| Selection.SelectionSize | internal/server/forwarderManager.go:1016-1149 | for every shuffle and a snapshot of the tables, distinct eligible forwarders are queued, min(limit, free capacity, eligible names) of them |
| Selection.SelectionOptimal | internal/server/forwarderManager.go:1036-1149 | for every shuffle and a snapshot of the tables, if a due forwarder is queued then every one left out is due too and no more overdue |
| Selection.QueuedMayBeAsked | internal/server/forwarderManager.go:1042-1083 | a queued forwarder is on the list, not suspended, has nothing pending for this peer and no cooldown for the hash |
| Selection.LeftOutForRoom | internal/server/forwarderManager.go:1092-1149 | a forwarder meeting these conditions is left out only when limit or free capacity is used up |
| Selection.LongestDueFirst | internal/server/forwarderManager.go:1085-1149 | a contacted forwarder is queued only after all never contacted ones and all that were due earlier |
| AnnounceQueueing.Enqueue | internal/server/forwarderManager.go:1092-1131 | a pending name or ended session is skipped, a full queue takes the marker back, else marker and job are added together |
| AnnounceQueueing.EnqueueRefines | internal/server/forwarderManager.go:1107-1121 | the lifecycle's Reserve and Send, or Reserve, Send and TakeBack, end with the tables that Enqueue leaves |
| AnnounceQueueing.ServedAppend | internal/server/forwarderManager.go:1133-1149 | the two loops together serve the concatenated list |
| AnnounceQueueing.EnqueueAll | internal/server/forwarderManager.go:1133-1149 | one loop queues what is served of its list, with consecutive fresh markers |
| AnnounceQueueing.Partition | internal/server/forwarderManager.go:1039-1083 | the loop splits the eligible forwarders into new and due ones, and only forgets suspensions that are over |
| AnnounceQueueing.QueueEligibleAnnounces | internal/server/forwarderManager.go:994-1154 | an uninterrupted call: queue and markers grow by exactly the selected jobs; on the tables, no forwarder suspended, pending or in cooldown is queued, and one that is none of these is left out only for limit or room; nothing for an ended session or when stopping |
| AnnounceQueueing.LimitByFill | internal/server/forwarderManager.go:1016-1019 | from the throttle threshold on topN applies, below it the configured maximum |
| AnnounceQueueing.QueuedJobsAre | internal/server/forwarderManager.go:1092-1131 | each queued job is immediate, for this hash, peer, session and its forwarder, with a fresh marker |
| SelectionRuns.TurnOutcome | internal/server/forwarderManager.go:1092-1131 | in every run, whatever other threads do: a candidate that was not the last had its key pending or its session ended at its turn, or its job was queued before the next turn |
| SelectionRuns.InterleavedOptimal | internal/server/forwarderManager.go:1085-1149 | in every run: when a candidate has its turn, everyone preferred to it has had one and was queued, unless found pending or its session ended |
| TokenBucket.Limiter.Allow | internal/server/forwarderManager.go:123-144 | grants and new state are those of the bucket, whose accounts CallAccounts states; tokens stay between 0 and burst |
| TokenBucket.GrantsArePaid | internal/server/forwarderManager.go:123-144 | every grant is paid from the credit at the window's start or from the time since |
| TokenBucket.WindowBound | internal/server/forwarderManager.go:123-144 | any window of T seconds, from any state, grants at most burst + rate * T + 1 calls |
| TokenBucket.RefusedLeavesBucket | internal/server/forwarderManager.go:130-137 | a refused call changes nothing, so polling does not postpone the next token |
| TokenBucket.EarnedIsGranted | internal/server/forwarderManager.go:130-141 | a call at least 1 / rate seconds after the last refill succeeds |
| TokenBucket.PollingSucceeds | internal/server/forwarderManager.go:123-144 | however often it is polled, the bucket grants a call within 1 / rate seconds of its last refill |
| TokenBucket.CallAccounts | internal/server/forwarderManager.go:130-141 | a call is granted if and only if tokens and earnings come to one; what is left is their sum, cut at burst, less the grant |
| TokenBucket.FirstCall | internal/server/forwarderManager.go:126-129 | the first call of all finds a full bucket |
| TokenBucket.NothingLost | internal/server/forwarderManager.go:123-144 | over any calls, tokens saved at the start were granted or are still there |
| TokenBucket.SavedAreGranted | internal/server/forwarderManager.go:123-144 | k saved tokens grant the next k calls at whatever instants; burst calls are granted from the first one on |
| TokenBucket.TimeIsWorthGrants | internal/server/forwarderManager.go:123-144 | while the bucket never fills up, grants and tokens left are at least the tokens at the start plus half the time's worth, less half a token |
| Wire.ValueOfBE | internal/server/udpForwarder.go:355-372 | a big-endian field of sufficient width is read back |
| Wire.BEOfValue | internal/server/receiverUDP.go:355-402 | reading a field and writing it again gives its bytes |
| Wire.HighFirst | internal/server/udpForwarder.go:355-372 | fields have their most significant byte first |
| Wire.UnpackPack | internal/server/udpForwarder.go:469-502 | packed records, with a partial record behind them, unpack to the records |
| Wire.PackUnpack | bittorrent/response/responseCompacted.go:50-90 | only a partial record at the end is lost by unpacking |
| UdpRequest.PacketRoundTrip | internal/server/udpForwarder.go:355-372 | an announce packet has 98 bytes and every field is read back |
| UdpRequest.PacketBack | internal/server/receiverUDP.go:355-402 | conversely, the decoded fields determine the first 98 bytes |
| UdpRequest.BuildAnnounceRequest | internal/server/udpForwarder.go:327-372 | the buffer written is the packet of the announce, with the event code, the forwarder's IPv4 address and the clamped numwant |
| UdpRequest.HandleAnnounce | internal/server/receiverUDP.go:339-430 | the field-by-field reader computes the outcome: an error reply, silence, or the parsed announce |
| UdpRequest.AnnounceArrives | internal/server/receiverUDP.go:355-430 | the server accepts what the client prints and passes on the same identifiers, counters, event name, port, address and number of peers |
| UdpRequest.AcceptedIff | internal/server/receiverUDP.go:342-402 | a packet is accepted exactly if it has at least 98 bytes and action announce; shorter announces of at least 20 bytes get no reply |
| UdpRequest.AcceptedDeterminesBytes | internal/server/receiverUDP.go:355-402 | accepted packets that decode alike agree on 98 bytes |
| UdpRequest.NumWantBack | bittorrent/tracker/request.go:22-31 | the client's and the server's normalisation of numwant agree |
| UdpRequest.PacketLayout | internal/server/udpForwarder.go:355-372 | each field at its offset in BEP 15 |
| UdpRequest.ForwardedBytes | internal/server/udpForwarder.go:327-372 | byte by byte what a tracker finds: action 1, event code, the configured address if IPv4, no key, 50 peers wanted by default and at most 200 |
| UdpRequest.RefusedBytes | internal/server/receiverUDP.go:339-402 | which error a packet gets, with the transaction ID from its bytes, and which packets get no answer |
| UdpRequest.AcceptedBytes | internal/server/receiverUDP.go:355-430 | what is passed on, from the packet's bytes: event name, address or none, and 50 peers for a zero or negative numwant |
| UdpReply.SendAnnounceResponse | internal/server/receiverUDP.go:613-653 | the datagram is the header and the packed records of the peers that have an address of the client's family |
| UdpReply.ParseReply | internal/server/udpForwarder.go:465-508 | the client reads the counters and every whole record |
| UdpReply.ReplyRoundTrip | internal/server/receiverUDP.go:613-653 | in both families the client reads back interval, counts and every peer with an address of that family, as canonical text |
| UdpReply.ReplyLayout | internal/server/receiverUDP.go:613-653 | five words, then for each peer with an address of the family its bytes and port, and nothing for the others |
| UdpReply.FamilyAgrees | internal/server/receiverUDP.go:586-593 | the peers' family is the family of the reply's records: IPv6 exactly for a client with a 16-byte address that is not a mapped IPv4 one |
| Addresses.SoundIsPossible | bittorrent/common/address.go:14-30 | what the address theorems assume of the address library can be met |
| UdpReply.ReplyArrives | internal/server/udpForwarder.go:396-502 | whatever numwant says, a reply has at most 200 peers and 3620 bytes, fits the client's 4096-byte buffer, and every listed peer arrives in order |
| UdpReply.DeliveredUnchanged | internal/server/udpForwarder.go:477-502 | a peer with canonical address text and a 16-bit port arrives unchanged but for its identifier |
| CompactPeers.ResponseCompacted.ReloadPeers | bittorrent/response/responseCompacted.go:92-118 | each peer goes to the first list that can hold its address, in order |
| CompactPeers.ResponseCompacted.Peers | bittorrent/response/responseCompacted.go:43-48 | the whole records of the first list, then those of the second |
| CompactPeers.ParsePeers | bittorrent/response/responseCompacted.go:50-90 | the consuming loop yields every whole record and stops at a short read |
| CompactPeers.DecodeEncoded | bittorrent/response/responseCompacted.go:43-118 | decoding an encoded list gives its IPv4 peers in order, then its IPv6 peers in order, without identifiers |
| CompactPeers.FamilyIs | bittorrent/response/responseCompacted.go:92-118 | a family is exactly the peers whose parsed address has the IPv4 prefix, or has not, in order |
| CompactPeers.Reencoded | bittorrent/response/responseCompacted.go:43-118 | what re-encoding decoded lists gives in general |
| CompactPeers.ReencodeIsExactIff | bittorrent/response/responseCompacted.go:43-118 | re-encoding reproduces the whole records if and only if no record of the IPv6 list holds an IPv4 address |
| CompactPeers.MappedRecordMoves | bittorrent/response/responseCompacted.go:92-111 | a concrete list that does not come back |
| UdpClient.FirstMatchMatches | internal/server/udpForwarder.go:166-177 | the packet a read returns carries the transaction ID and is a received datagram as the buffer cut it |
| UdpClient.FirstMatchSkips | internal/server/udpForwarder.go:166-177 | stale and short datagrams in front change nothing |
| UdpClient.FirstIsRead | internal/server/udpForwarder.go:166-177 | the first datagram with the transaction ID in its bytes is read, cut to the buffer |
| UdpClient.NothingIsRead | internal/server/udpForwarder.go:166-177 | without one the read fails |
| UdpClient.ReadTrackerResponse | internal/server/udpForwarder.go:166-177 | the read loop returns the first matching datagram, or fails |
| UdpClient.ConnectedByReply | internal/server/udpForwarder.go:205-288 | a connection ID comes from a connect reply of at least 16 bytes to this call's transaction, within maxRetries attempts |
| UdpClient.AnnounceBounds | internal/server/udpForwarder.go:374-510 | at most maxRetries + 1 announce packets and one reconnect; one packet fewer without a reconnect |
| UdpClient.AnnouncedByReply | internal/server/udpForwarder.go:378-510 | success comes only from a packet with the last announce's transaction ID, action announce and at least 20 bytes |
| UdpClient.FirstAnswerWins | internal/server/udpForwarder.go:374-510 | if attempts before it decide nothing and attempts are left, the first answer is the result, after one packet per attempt |
| UdpClient.GivingUpTakesAll | internal/server/udpForwarder.go:378-510 | giving up for want of an answer takes every attempt: exactly the remaining ones, and one more after a refresh |
| UdpClient.RefreshAnnouncesAgain | internal/server/udpForwarder.go:428-451 | after a first stale cookie and a successful connect the same attempt is announced again with the new connection ID |
| UdpClient.RecoversFromStaleCookie | internal/server/udpForwarder.go:428-510 | and then succeeds with the first answer |
| UdpClient.ErrorEnds | internal/server/udpForwarder.go:428-451 | any other tracker error ends the call and forgets the connection ID |
| UdpClient.CancellationStops | internal/server/udpForwarder.go:374-395 | a cancellation ends the call without another packet |
| UdpClient.FirstConnectReplyWins | internal/server/udpForwarder.go:205-288 | connect retries likewise and returns the connection ID of the first reply |
| UdpClient.ConnectTakesAll | internal/server/udpForwarder.go:205-288 | and gives up for want of a reply only after all attempts |
| UdpClient.KeptConnection | internal/server/udpForwarder.go:428-451 | the connection ID kept afterwards: none after a tracker error, the new one after a refresh, else the old one |
| UdpClient.ServerReplyIsAccepted | internal/server/udpForwarder.go:396-508 | a reply of this server, behind stale datagrams, is accepted with every peer it lists |
| UdpClient.UDPForwarder.Connect | internal/server/udpForwarder.go:187-295 | the loop computes the modelled connect and stores a connection ID only after a matching reply; it never falls through |
| UdpClient.UDPForwarder.Announce | internal/server/udpForwarder.go:374-516 | the loop ends by (refresh unused, attempts left), computes the modelled announce, and never falls through without a response |
| PeerFilter.KeyInjective | internal/server/receiverAnnounce.go:363-367 | the text key identifies address and port, for IPv6 text too |
| PeerFilter.FilterPeers | internal/server/receiverAnnounce.go:335-375 | the loop takes the first peer per endpoint among the admissible ones, up to the limit |
| PeerFilter.ListedInOrder | internal/server/receiverAnnounce.go:347-372 | listed peers keep their order, each the first admissible one with its endpoint |
| PeerFilter.EveryEndpointListed | internal/server/receiverAnnounce.go:347-372 | before the limit every admissible endpoint is listed |
| PeerFilter.FilteredIs | internal/server/receiverAnnounce.go:335-375 | endpoints are distinct, the limit holds, and a shorter result has every admissible endpoint |
| PeerFilter.ReplyLists | internal/server/receiverAnnounce.go:335-375 | never the requester's identifier or endpoint nor another family; a peer that may be listed is, by its first endpoint, unless earlier ones fill the reply, of 50 by default |
| PeerCount.Total | internal/server/receiverAnnounce.go:274-310 | seeders plus leechers is the number of distinct nonempty addresses |
| PeerCount.TotalsAgree | internal/server/scrape.go:50-99 | for all map orders announce and scrape agree on the total of a snapshot, if no entry expires between the two |
| PeerCount.UpstreamAdds | internal/server/receiverAnnounce.go:297-307 | upstream peers add to the seeders the distinct addresses no local peer has |
| PeerCount.LocalSplit | internal/server/receiverAnnounce.go:274-292 | an address counts as a seeder if the first peer visited at it has completed or has nothing left, else as a leecher |
| PeerCount.CountedAddresses | internal/server/receiverAnnounce.go:274-307 | the addresses counted: of local peers the announced one or else the socket's, of other trackers' peers those of unexpired entries |
| PeerCount.ConflictVaries | internal/server/receiverAnnounce.go:276-307 | a seeder and a leecher on one address make the reported split depend on the order |
| PeerCount.SplitIsFixedIff | internal/server/receiverAnnounce.go:274-307 | the reported number of seeders, upstream peers included, is the same for every order of both maps if and only if no address is shared by a seeder and a leecher |
| PeerCount.CountLocalPeers | internal/server/receiverAnnounce.go:274-292 | the counting loop over the local peers, for the order it happens to visit |
| PeerCount.CountUpstreamPeers | internal/server/receiverAnnounce.go:297-307 | upstream peers add unseen addresses as seeders |
| PeerCount.GetPeers | internal/server/storage.go:98-108 | every local peer exactly once |
| PeerCount.CountSwarm | internal/server/scrape.go:57-94 | the two loops give a count for some map orders, totalling the distinct addresses |
| PeerCount.GetPeersForResponse | internal/server/receiverAnnounce.go:254-313 | counts total the distinct addresses of the store as counted; peers are the local ones of the store as listed, then the fresh upstream ones |
| PeerCount.GetScrapeStats | internal/server/scrape.go:44-102 | for each valid hash the announce's total, with downloaded equal to complete; other hashes are left out |

## Left out

- Sockets, HTTP, DNS, TLS, bencode, logging, metrics, configuration, statistics and temporary files.
- Text rendering of numbers between the UDP parser and `MakeRequest`, and the connection-ID check before
  `handleAnnounce`: the parsed values are passed on as numbers.
- `doHTTPAnnounce` and the classification of its errors: in the lifecycle an execution ends with any result
  (`Publish`), a deferral, or nothing (`Abandon`), which covers every branch of `handleAnnounceResult`. Sleeping
  between attempts and its doubling are left out too.
- The contents of a job beyond its identity, times and marker (`Forwarder`, `Request`): no property depends on them.
- `scaleWorkers` and `workerCount`: workers come and go at any time in the lifecycle.
- `AddRuntimeForwarder` and the list of forwarders: any name can be reserved at any time, so nothing is claimed
  about disabled names. A disabled forwarder can regain cache entries from a job in flight.
- The session-less `CancelPendingJobs` of `ForwardStoppedEvent`, which the announce path does not call, and jobs
  without a session: the main storage is always present.
- `getConnectionID` and the expiry of cached connection IDs, the server's own connection table, UDP scrape packets.
- The atomic actions that span two locks (`cancelPendingJobs`, the end of `handleRetryError`): both hold `pendingMu`
  over the two, and no section outside `pendingMu` looks at markers.
- `sort.SliceStable` is modelled by insertion; `Selection.SortIsDetermined` shows that the result is the same.
- TokenBucket.WindowBound: the refill is an integer quotient, where the code multiplies floating-point seconds.
- TokenBucket.Limiter.Allow: the same quotient; the rounding of the floating-point product is not modelled.
- TokenBucket.EarnedIsGranted: rounding at exactly 1 / rate seconds is not modelled.
- TokenBucket.TimeIsWorthGrants: the integer quotient again; half of the time's worth is what its rounding can lose.
- Selection.SelectionSize: a snapshot of the tables; what holds while they change is SelectionRuns.TurnOutcome.
- Selection.SelectionOptimal: a snapshot of the tables; what holds while they change is SelectionRuns.InterleavedOptimal.
- AnnounceQueueing.QueueEligibleAnnounces: an uninterrupted call, each of whose sections is an action of the
  lifecycle (EnqueueRefines); SelectionRuns covers the interleaved call.
- ForwarderQueue.ForwarderManager.ProcessScheduledReadyJob: an uninterrupted call; ReadyJobs.ReadyJobFate covers the
  interleaved one.
- Overflow of durations in `UpdatePeers` and of the `time.Time` subtraction behind `overdue`: nanoseconds are unbounded here.
- ForwarderQueue.ForwarderManager.SchedulerTick: a slot is a sequence in the map, copied to its own array for the
  compaction, so aliasing between the slices of different slots is not modelled.
- ForwarderCache.PruneKeepsDue: says nothing about whether a hash counts as announced before, which pruning can change.
- PeerStorage.Storage.PurgeExpired: one clock reading for the sweep, where the code reads the clock for each peer.
- That no request to an empty URI is answered is a fact about the HTTP transport, taken as the hypothesis of
  LifecycleRuns.MarkerHasOneJob for the unnamed forwarder.
- LifecycleRuns.DeferralWaits: no cooldown is claimed to be monotone over a run, since a success replaces it.
- UdpRequest.AcceptedIff: unknown event codes are accepted as no event, as in the code.
