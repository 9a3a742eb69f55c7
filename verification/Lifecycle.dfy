// The forwarding-job lifecycle as a state machine: one action per critical section.
//
// Threads are announce handlers (producers), workers, the scheduler, the store's purge and close, and
// Stop. Each keeps its local variables in the state between its critical sections, so every
// interleaving of critical sections is a run. Where one lock is held across two sections that commute
// with everything another thread may do in between, they are one action:
//  - cancelPendingJobs holds pendingMu over its marker scan and its schedule scan, and no section that
//    avoids pendingMu looks at markers;
//  - handleRetryError holds pendingMu while it installs the marker and calls scheduleJob, and puts the
//    previous marker back when scheduleJob refuses, so a refusal has no effect others can see.
module Lifecycle {
  import opened Types
  import opened CacheModel
  import opened StoreModel
  import opened ScheduleModel

  type ThreadId = int

  // handleRetryError ignores a delay that does not fit a 64-bit duration.
  const MAX_RETRY_MINUTES := 0x7FFF_FFFF_FFFF_FFFF / MINUTE

  // One pass of the worker loop.
  datatype Work =
    | Idle
    | Taken(job: Job)                            // received from the queue
    | Early(job: Job)                            // before its ScheduledTime: about to call scheduleJob
    | Executing(job: Job, since: int)            // in executeAnnounce, since this instant
    | Deferred(job: Job, asked: int, until: int) // retry cooldown stored, retry job not yet installed
    | Finishing(job: Job)                        // about to call finishJob

  // One call of queueEligibleAnnounces, holding the read side of queueMu.
  datatype Producer =
    | Offering(key: PeerKey, session: SessionId)
    | Sending(key: PeerKey, session: SessionId, job: Job) // marker reserved, about to send
    | Refused(key: PeerKey, session: SessionId, job: Job) // queue full, about to call finishJob

  // processScheduledReadyJob for the first ready job: not entered, or holding the read side of queueMu.
  datatype Phase = Unlocked | Pushing | Moving(at: int) | Giving

  datatype Round =
    | Off
    | Waiting
    | Draining(now: int, dropped: seq<Job>, ready: seq<Job>, phase: Phase)

  datatype StopPhase = Running | Joining | MarkersCleared | ScheduleCleared | Stopped

  // `unnamedDeferred` records whether a job of a forwarder without a name was ever deferred; the code keeps
  // no such field, it is here to state when markers can outlive their jobs.
  datatype State = State(
    now: int,
    store: Store,
    cache: Cache,
    pending: Pending,
    queue: seq<Job>,
    capacity: nat,
    scheduled: Schedule,
    suspended: map<string, int>,
    producers: map<ThreadId, Producer>,
    workers: map<ThreadId, Work>,
    round: Round,
    nextMarker: nat,
    stop: StopPhase,
    unnamedDeferred: bool)

  predicate Stopping(s: State) {
    s.stop != Running
  }

  predicate Ended(s: State, job: Job) {
    job.marker.session in s.store.ended
  }

  // Somebody holds the read side of queueMu.
  predicate ReadLocked(s: State) {
    s.producers != map[] || (s.round.Draining? && s.round.phase != Unlocked)
  }

  function Init(now: int, capacity: nat): State {
    State(now, EMPTY_STORE, map[], map[], [], capacity, map[], map[], map[], map[], Off, 0, Running, false)
  }

  // Announce handlers, the peer store and the tables of the manager.
  datatype TableAction =
    | Announce(request: Request)
    | StopEvent(key: PeerKey)
    | CancelJobs(key: PeerKey, session: SessionId)
    | PurgePeers(age: int)
    | CloseCancel
    | CloseClear
    | PruneCache(at: int, maxPeerAge: int)
    | DisableForwarder(name: string)
    | Suspend(name: string, until: int)

  // queueEligibleAnnounces
  datatype ProducerAction =
    | Begin(key: PeerKey, session: SessionId)
    | Reserve(name: string)
    | Send
    | TakeBack
    | End

  datatype WorkerAction =
    | Spawn
    | Exit
    | Take
    | Examine
    | ScheduleEarly
    | Publish(peers: seq<Peer>, interval: int)
    | Abandon
    | DeferRetry(minutes: int, at: int)
    | InstallRetry
    | Finish

  datatype RoundAction =
    | StartScheduler
    | ExitScheduler
    | Tick(order: seq<int>, at: int)
    | DropOne
    | Enter
    | Push
    | Move
    | Give
    | EndRound

  // ForwarderManager.Stop
  datatype StopAction = StopFlag | StopMarkers | StopSchedule | StopDrain | StopReturn

  datatype Action =
    | Clock(to: int)
    | OnTables(table: TableAction)
    | ByProducer(p: ThreadId, producer: ProducerAction)
    | ByWorker(w: ThreadId, work: WorkerAction)
    | ByScheduler(scheduler: RoundAction)
    | ByStop(stop: StopAction)

  predicate HeadReady(s: State) {
    s.round.Draining? && s.round.dropped == [] && s.round.ready != []
  }

  predicate TableEnabled(s: State, a: TableAction) {
    match a
    case CancelJobs(key, session) =>
      session < |s.store.issued| && s.store.issued[session] == key && session in s.store.ended
    case CloseClear => s.store.closed
    case PruneCache(at, _) => at <= s.now
    case _ => true
  }

  predicate ProducerEnabled(s: State, p: ThreadId, a: ProducerAction) {
    match a
    case Begin(key, session) =>
      && p !in s.producers && !Stopping(s)
      && session < |s.store.issued| && s.store.issued[session] == key
    case Reserve(_) => p in s.producers && s.producers[p].Offering?
    case Send => p in s.producers && s.producers[p].Sending?
    case TakeBack => p in s.producers && s.producers[p].Refused?
    case End => p in s.producers && s.producers[p].Offering?
  }

  predicate WorkerEnabled(s: State, w: ThreadId, a: WorkerAction) {
    if a.Spawn? then w !in s.workers && !Stopping(s)
    else
      && w in s.workers
      && match a
         case Exit => s.workers[w].Idle?
         case Take => s.workers[w].Idle? && s.queue != []
         case Examine => s.workers[w].Taken?
         case ScheduleEarly => s.workers[w].Early?
         case Publish(_, _) => s.workers[w].Executing?
         case Abandon => s.workers[w].Executing?
         case DeferRetry(minutes, at) =>
           s.workers[w].Executing? && 0 < minutes <= MAX_RETRY_MINUTES && s.workers[w].since <= at <= s.now
         case InstallRetry => s.workers[w].Deferred?
         case Finish => s.workers[w].Finishing?
  }

  predicate RoundEnabled(s: State, a: RoundAction) {
    match a
    case StartScheduler => s.round.Off? && !Stopping(s)
    case ExitScheduler => s.round.Waiting? && Stopping(s)
    case Tick(order, at) => s.round.Waiting? && Enumerates(order, s.scheduled) && at <= s.now
    case DropOne => s.round.Draining? && s.round.dropped != []
    case Enter => HeadReady(s) && s.round.phase.Unlocked?
    case Push => HeadReady(s) && s.round.phase.Pushing?
    case Move => HeadReady(s) && s.round.phase.Moving?
    case Give => HeadReady(s) && s.round.phase.Giving?
    case EndRound => s.round.Draining? && s.round.dropped == [] && s.round.ready == [] && s.round.phase.Unlocked?
  }

  predicate StopEnabled(s: State, a: StopAction) {
    match a
    case StopFlag => s.stop.Running? && !ReadLocked(s)
    case StopMarkers => s.stop.Joining? && s.workers == map[] && s.round.Off?
    case StopSchedule => s.stop.MarkersCleared?
    case StopDrain => s.stop.ScheduleCleared? && s.queue != []
    case StopReturn => s.stop.ScheduleCleared? && s.queue == []
  }

  predicate Enabled(s: State, a: Action) {
    match a
    case Clock(to) => s.now <= to
    case OnTables(table) => TableEnabled(s, table)
    case ByProducer(p, producer) => ProducerEnabled(s, p, producer)
    case ByWorker(w, work) => WorkerEnabled(s, w, work)
    case ByScheduler(scheduler) => RoundEnabled(s, scheduler)
    case ByStop(stop) => StopEnabled(s, stop)
  }

  function SetWork(s: State, w: ThreadId, work: Work): State {
    s.(workers := s.workers[w := work])
  }

  function SetProducer(s: State, p: ThreadId, producer: Producer): State {
    s.(producers := s.producers[p := producer])
  }

  // The steps below that touch neither the peer store, nor the cache, nor the record of deferrals say so.

  // The marker section of `enqueue`: skip a pending key and an ended session, else reserve a fresh marker.
  function ReserveOf(s: State, p: ThreadId, name: string): (r: State)
    requires p in s.producers
    ensures r.store == s.store && r.cache == s.cache && r.unnamedDeferred == s.unnamedDeferred
    ensures r.round == s.round && r.stop == s.stop
  {
    var key, session := s.producers[p].key, s.producers[p].session;
    var job := Job(key.infoHash, name, key.peerID, ZERO_TIME, ZERO_TIME, Marker(s.nextMarker, session));
    if job.Key() in s.pending || session in s.store.ended then s
    else
      SetProducer(s, p, Sending(key, session, job)).(
        pending := s.pending[job.Key() := job.marker], nextMarker := s.nextMarker + 1)
  }

  // A send that does not block.
  function SendOf(s: State, p: ThreadId): (r: State)
    requires p in s.producers && s.producers[p].Sending?
    ensures r.store == s.store && r.cache == s.cache && r.unnamedDeferred == s.unnamedDeferred
    ensures r.round == s.round && r.stop == s.stop
  {
    var Sending(key, session, job) := s.producers[p];
    if |s.queue| < s.capacity then
      SetProducer(s, p, Offering(key, session)).(queue := s.queue + [job])
    else
      SetProducer(s, p, Refused(key, session, job))
  }

  // The worker's checks on a received job.
  function Examined(job: Job, now: int, ended: set<SessionId>): Work {
    if job.marker.session in ended then Finishing(job)
    else if job.time != ZERO_TIME && now < job.time then Early(job)
    else Executing(job, now)
  }

  function ScheduleEarlyOf(s: State, w: ThreadId): (r: State)
    requires w in s.workers && s.workers[w].Early?
    ensures r.store == s.store && r.cache == s.cache && r.unnamedDeferred == s.unnamedDeferred
    ensures r.round == s.round && r.stop == s.stop && r.producers == s.producers
  {
    var job := s.workers[w].job;
    if CanSchedule(s.scheduled, s.store.ended, Stopping(s), job) then
      SetWork(s, w, Idle).(scheduled := AddJob(s.scheduled, job))
    else
      SetWork(s, w, Finishing(job))
  }

  // updatePeerCache refuses a job of an ended session, and every job once stopping.
  predicate MayWrite(s: State, job: Job) {
    !Ended(s, job) && !Stopping(s)
  }

  function PublishOf(s: State, w: ThreadId, peers: seq<Peer>, interval: int): (r: State)
    requires w in s.workers && s.workers[w].Executing?
    ensures r.store == s.store && r.round == s.round && r.stop == s.stop && r.producers == s.producers
  {
    var job := s.workers[w].job;
    var s1 := SetWork(s, w, Finishing(job));
    if MayWrite(s, job) then
      s1.(cache := UpdatePeers(s.cache, job.infoHash, job.name, peers, interval, s.now))
    else
      s1
  }

  // The clock is read at `at`, before the section that stores the cooldown.
  function DeferRetryOf(s: State, w: ThreadId, minutes: int, at: int): (r: State)
    requires w in s.workers && s.workers[w].Executing?
    ensures r.store == s.store && r.round == s.round && r.stop == s.stop && r.producers == s.producers
  {
    var job := s.workers[w].job;
    if MayWrite(s, job) then
      var asked := at + minutes * MINUTE;
      var (cache, until) := DeferAnnounce(s.cache, job.infoHash, job.name, asked);
      SetWork(s, w, Deferred(job, asked, until)).(cache := cache, unnamedDeferred := s.unnamedDeferred || job.name == "")
    else
      SetWork(s, w, Finishing(job))
  }

  function RetryJob(s: State, work: Work): Job
    requires work.Deferred?
  {
    work.job.(time := work.until, asked := work.asked, marker := Marker(s.nextMarker, work.job.marker.session))
  }

  function InstallRetryOf(s: State, w: ThreadId): (r: State)
    requires w in s.workers && s.workers[w].Deferred?
    ensures r.store == s.store && r.cache == s.cache && r.unnamedDeferred == s.unnamedDeferred
    ensures r.round == s.round && r.stop == s.stop && r.producers == s.producers
  {
    var retry := RetryJob(s, s.workers[w]);
    var s1 := SetWork(s, w, Finishing(s.workers[w].job)).(nextMarker := s.nextMarker + 1);
    if CanSchedule(s.scheduled, s.store.ended, Stopping(s), retry) then
      s1.(pending := s.pending[retry.Key() := retry.marker], scheduled := AddJob(s.scheduled, retry))
    else
      s1
  }

  // getSuspendedUntil forgets a suspension that is over.
  function Suspension(suspended: map<string, int>, name: string, now: int): (map<string, int>, Option<int>) {
    if name !in suspended then (suspended, None)
    else if now > suspended[name] then (suspended - {name}, None)
    else (suspended, Some(suspended[name]))
  }

  function RescheduleAt(until: int, now: int): int {
    if until > now then until else now + SECOND
  }

  // The checks on entering processScheduledReadyJob: what is left of the suspensions, and what to do next.
  function Entered(s: State): (map<string, int>, Phase)
    requires HeadReady(s)
  {
    var job := s.round.ready[0];
    if Stopping(s) || Ended(s, job) then (s.suspended, Giving)
    else
      var (suspended, until) := Suspension(s.suspended, job.name, s.round.now);
      (suspended, if until.Some? then Moving(RescheduleAt(until.value, s.round.now)) else Pushing)
  }

  function EnterOf(s: State): (r: State)
    requires HeadReady(s)
    ensures r.store == s.store && r.cache == s.cache && r.unnamedDeferred == s.unnamedDeferred
    ensures r.stop == s.stop && r.producers == s.producers
  {
    var (suspended, phase) := Entered(s);
    s.(suspended := suspended, round := s.round.(phase := phase))
  }

  function NextReady(s: State): State
    requires HeadReady(s)
  {
    s.(round := s.round.(ready := s.round.ready[1..], phase := Unlocked))
  }

  function PushOf(s: State): (r: State)
    requires HeadReady(s)
    ensures r.store == s.store && r.cache == s.cache && r.unnamedDeferred == s.unnamedDeferred
    ensures r.stop == s.stop && r.producers == s.producers
  {
    if |s.queue| < s.capacity then NextReady(s).(queue := s.queue + [s.round.ready[0]])
    else s.(round := s.round.(phase := Moving(s.round.now + 10 * SECOND)))
  }

  function MoveOf(s: State): (r: State)
    requires HeadReady(s) && s.round.phase.Moving?
    ensures r.store == s.store && r.cache == s.cache && r.unnamedDeferred == s.unnamedDeferred
    ensures r.stop == s.stop && r.producers == s.producers
  {
    var job := s.round.ready[0].(time := s.round.phase.at);
    if CanSchedule(s.scheduled, s.store.ended, Stopping(s), job) then
      NextReady(s).(scheduled := AddJob(s.scheduled, job))
    else
      s.(round := s.round.(phase := Giving))
  }

  function GiveOf(s: State): (r: State)
    requires HeadReady(s)
    ensures r.store == s.store && r.cache == s.cache && r.unnamedDeferred == s.unnamedDeferred
    ensures r.stop == s.stop && r.producers == s.producers
  {
    NextReady(s).(pending := FinishJob(s.pending, s.round.ready[0]))
  }

  // A tick compares with the clock as it read it, at `at`, before taking the schedule's lock.
  function TickOf(s: State, order: seq<int>, at: int): (r: State)
    ensures r.store == s.store && r.cache == s.cache && r.unnamedDeferred == s.unnamedDeferred
    ensures r.stop == s.stop && r.producers == s.producers
  {
    s.(scheduled := KeptSlots(s.scheduled, at, s.store.ended),
       round := Draining(at, Gather(s.scheduled, order, Cancelled, at, s.store.ended),
                         Gather(s.scheduled, order, Ready, at, s.store.ended), Unlocked))
  }

  function TableApply(s: State, a: TableAction): State
    requires TableEnabled(s, a)
  {
    match a
    case Announce(request) => s.(store := Update(s.store, request).0)
    case StopEvent(key) => var (st, c) := StopPeer(s.store, s.cache, key); s.(store := st, cache := c)
    case CancelJobs(key, session) =>
      s.(pending := CancelMarkers(s.pending, key, session), scheduled := CancelScheduled(s.scheduled, key, session))
    case PurgePeers(age) => var (st, c) := Purge(s.store, s.cache, s.now, age); s.(store := st, cache := c)
    case CloseCancel => s.(store := CancelAll(s.store))
    case CloseClear => s.(store := ClearSessions(s.store))
    case PruneCache(at, maxPeerAge) => s.(cache := Prune(s.cache, at, maxPeerAge))
    case DisableForwarder(name) => s.(cache := WithoutForwarder(s.cache, name))
    case Suspend(name, until) => s.(suspended := s.suspended[name := until])
  }

  function ProducerApply(s: State, p: ThreadId, a: ProducerAction): State
    requires ProducerEnabled(s, p, a)
  {
    match a
    case Begin(key, session) => SetProducer(s, p, Offering(key, session))
    case Reserve(name) => ReserveOf(s, p, name)
    case Send => SendOf(s, p)
    case TakeBack => s.(producers := s.producers - {p}, pending := FinishJob(s.pending, s.producers[p].job))
    case End => s.(producers := s.producers - {p})
  }

  function WorkerApply(s: State, w: ThreadId, a: WorkerAction): State
    requires WorkerEnabled(s, w, a)
  {
    match a
    case Spawn => SetWork(s, w, Idle)
    case Exit => s.(workers := s.workers - {w})
    case Take => SetWork(s, w, Taken(s.queue[0])).(queue := s.queue[1..])
    case Examine => SetWork(s, w, Examined(s.workers[w].job, s.now, s.store.ended))
    case ScheduleEarly => ScheduleEarlyOf(s, w)
    case Publish(peers, interval) => PublishOf(s, w, peers, interval)
    case Abandon => SetWork(s, w, Finishing(s.workers[w].job))
    case DeferRetry(minutes, at) => DeferRetryOf(s, w, minutes, at)
    case InstallRetry => InstallRetryOf(s, w)
    case Finish => SetWork(s, w, Idle).(pending := FinishJob(s.pending, s.workers[w].job))
  }

  function RoundApply(s: State, a: RoundAction): State
    requires RoundEnabled(s, a)
  {
    match a
    case StartScheduler => s.(round := Waiting)
    case ExitScheduler => s.(round := Off)
    case Tick(order, at) => TickOf(s, order, at)
    case DropOne =>
      s.(round := s.round.(dropped := s.round.dropped[1..]), pending := FinishJob(s.pending, s.round.dropped[0]))
    case Enter => EnterOf(s)
    case Push => PushOf(s)
    case Move => MoveOf(s)
    case Give => GiveOf(s)
    case EndRound => s.(round := Waiting)
  }

  function StopApply(s: State, a: StopAction): State
    requires StopEnabled(s, a)
  {
    match a
    case StopFlag => s.(stop := Joining)
    case StopMarkers => s.(stop := MarkersCleared, pending := map[])
    case StopSchedule => s.(stop := ScheduleCleared, scheduled := map[])
    case StopDrain => s.(queue := s.queue[1..])
    case StopReturn => s.(stop := Stopped)
  }

  function Apply(s: State, a: Action): State
    requires Enabled(s, a)
  {
    match a
    case Clock(to) => s.(now := to)
    case OnTables(table) => TableApply(s, table)
    case ByProducer(p, producer) => ProducerApply(s, p, producer)
    case ByWorker(w, work) => WorkerApply(s, w, work)
    case ByScheduler(scheduler) => RoundApply(s, scheduler)
    case ByStop(stop) => StopApply(s, stop)
  }
}
