// What holds in every reachable state of the lifecycle.
module LifecycleInvariant {
  import opened Types
  import opened CacheModel
  import opened StoreModel
  import opened ScheduleModel
  import opened Lifecycle

  // Everywhere a job can be.
  datatype Holder =
    | InQueue
    | InSlot(t: int)
    | InDropped
    | InReady
    | AtWorker(w: ThreadId)
    | AtProducer(p: ThreadId)

  function WorkHeld(work: Work): seq<Job> {
    if work.Idle? then [] else [work.job]
  }

  function ProducerHeld(producer: Producer): seq<Job> {
    if producer.Offering? then [] else [producer.job]
  }

  // The jobs in one place, in order.
  function Held(s: State, h: Holder): seq<Job> {
    match h
    case InQueue => s.queue
    case InSlot(t) => Slot(s.scheduled, t)
    case InDropped => if s.round.Draining? then s.round.dropped else []
    case InReady => if s.round.Draining? then s.round.ready else []
    case AtWorker(w) => if w in s.workers then WorkHeld(s.workers[w]) else []
    case AtProducer(p) => if p in s.producers then ProducerHeld(s.producers[p]) else []
  }

  // Every job is in one place only.
  ghost predicate OnePlace(s: State) {
    forall h1, i1, h2, i2 ::
      (0 <= i1 < |Held(s, h1)| && 0 <= i2 < |Held(s, h2)| && Held(s, h1)[i1].marker.id == Held(s, h2)[i2].marker.id) ==>
        h1 == h2 && i1 == i2
  }

  // A job past its retry or past its result no longer claims its marker.
  predicate Claims(s: State, h: Holder) {
    h.AtWorker? && h.w in s.workers ==> !s.workers[h.w].Finishing?
  }

  predicate Owns(s: State, job: Job) {
    job.Key() in s.pending && s.pending[job.Key()] == job.marker
  }

  // Stop has not yet thrown the markers away.
  predicate MarkersKept(s: State) {
    s.stop.Running? || s.stop.Joining?
  }

  // Every job of a live session that still claims its marker owns it.
  ghost predicate Ownership(s: State) {
    forall h, i :: 0 <= i < |Held(s, h)| && Claims(s, h) && !Ended(s, Held(s, h)[i]) ==> Owns(s, Held(s, h)[i])
  }

  ghost predicate HasHolder(s: State, key: JobKey, marker: Marker) {
    exists h, i :: 0 <= i < |Held(s, h)| && Held(s, h)[i].Key() == key && Held(s, h)[i].marker == marker
  }

  // Markers of the unnamed forwarder can be orphaned only after one of its jobs was deferred.
  predicate Tracked(s: State, key: JobKey) {
    key.name != "" || !s.unnamedDeferred
  }

  // Every tracked marker belongs to a job somewhere.
  ghost predicate NoLeak(s: State) {
    forall key :: key in s.pending && Tracked(s, key) ==> HasHolder(s, key, s.pending[key])
  }

  // A job carries a session that was issued for its peer, and a marker number already handed out.
  predicate WellFormed(issued: seq<PeerKey>, nextMarker: nat, job: Job) {
    && job.marker.session < |issued| && issued[job.marker.session] == job.Peer()
    && job.marker.id < nextMarker
    && job.asked <= job.time
  }

  ghost predicate JobsWellFormed(s: State) {
    forall h, i :: 0 <= i < |Held(s, h)| ==> WellFormed(s.store.issued, s.nextMarker, Held(s, h)[i])
  }

  ghost predicate MarkersOk(pending: Pending, issued: seq<PeerKey>, nextMarker: nat) {
    forall key :: key in pending ==>
      && pending[key].id < nextMarker
      && pending[key].session < |issued|
      && issued[pending[key].session] == PeerKey(key.infoHash, key.peerID)
  }

  // At most one scheduled job per hash and forwarder, filed under its own time, and no empty slot.
  ghost predicate ScheduleOk(sched: Schedule) {
    && (forall t :: t in sched ==> sched[t] != [])
    && (forall t, i :: t in sched && 0 <= i < |sched[t]| ==> sched[t][i].time == t)
    && (forall t, i, u, j ::
          (t in sched && 0 <= i < |sched[t]| && u in sched && 0 <= j < |sched[u]| && SameUpstream(sched[t][i], sched[u][j])) ==>
            t == u && i == j)
  }

  // No job started before its time, and no retry waits less than the upstream asked.
  predicate WorkPunctual(work: Work, now: int) {
    && (work.Executing? ==> work.job.time <= work.since <= now && ZERO_TIME <= work.since)
    && (work.Deferred? ==> work.asked <= work.until)
  }

  ghost predicate WorkersPunctual(workers: map<ThreadId, Work>, now: int) {
    forall w :: w in workers ==> WorkPunctual(workers[w], now)
  }

  // No ready job is early, and a rescheduled one moves strictly later than this round.
  ghost predicate RoundPunctual(round: Round, now: int) {
    round.Draining? ==>
      && round.now <= now
      && (forall i :: 0 <= i < |round.ready| ==> round.ready[i].time <= round.now)
      && (round.phase.Moving? ==> round.now < round.phase.at)
  }

  ghost predicate ProducersOk(producers: map<ThreadId, Producer>, issued: seq<PeerKey>) {
    forall p :: p in producers ==>
      && producers[p].session < |issued|
      && issued[producers[p].session] == producers[p].key
  }

  ghost predicate StopOk(s: State) {
    && (s.producers != map[] ==> s.stop.Running?)
    && (s.round.Draining? && (s.round.phase.Pushing? || s.round.phase.Moving?) ==>
          s.stop.Running? && s.round.dropped == [] && s.round.ready != [])
    && (s.stop.MarkersCleared? || s.stop.ScheduleCleared? || s.stop.Stopped? ==>
          s.workers == map[] && s.round.Off? && s.pending == map[])
    && (s.stop.ScheduleCleared? || s.stop.Stopped? ==> s.scheduled == map[])
    && (s.stop.Stopped? ==> s.queue == [])
    && |s.queue| <= s.capacity
  }

  ghost predicate StoreOk(store: Store, cache: Cache) {
    Valid(store) && NoEmpty(cache) && Covers(store, cache)
  }

  // The parts that a step establishes directly.
  ghost predicate Local(s: State) {
    && StoreOk(s.store, s.cache)
    && MarkersOk(s.pending, s.store.issued, s.nextMarker)
    && ProducersOk(s.producers, s.store.issued)
    && ScheduleOk(s.scheduled)
    && ZERO_TIME <= s.now
    && WorkersPunctual(s.workers, s.now)
    && RoundPunctual(s.round, s.now)
    && StopOk(s)
  }

  // The parts about where every job is and who owns its marker.
  ghost predicate Placed(s: State) {
    && JobsWellFormed(s)
    && OnePlace(s)
    && (MarkersKept(s) ==> Ownership(s))
    && NoLeak(s)
  }

  ghost predicate Inv(s: State) {
    Local(s) && Placed(s)
  }

  // Unless a job without a forwarder name was deferred, none has a scheduled time or is on its way to or
  // from the schedule.

  predicate Immediate(job: Job) {
    job.name == "" ==> job.time == ZERO_TIME
  }

  ghost predicate QueueNamed(queue: seq<Job>) {
    forall i :: 0 <= i < |queue| ==> Immediate(queue[i])
  }

  ghost predicate AllNamed(jobs: seq<Job>) {
    forall i :: 0 <= i < |jobs| ==> jobs[i].name != ""
  }

  ghost predicate ScheduleNamed(sched: Schedule) {
    forall t :: t in sched ==> AllNamed(sched[t])
  }

  ghost predicate RoundNamed(round: Round) {
    round.Draining? ==> AllNamed(round.dropped) && AllNamed(round.ready)
  }

  predicate WorkNamed(work: Work) {
    && (work.Taken? ==> Immediate(work.job))
    && (work.Early? || work.Deferred? ==> work.job.name != "")
  }

  ghost predicate WorkersNamed(workers: map<ThreadId, Work>) {
    forall w :: w in workers ==> WorkNamed(workers[w])
  }

  ghost predicate ProducersNamed(producers: map<ThreadId, Producer>) {
    forall p :: p in producers && producers[p].Sending? ==> Immediate(producers[p].job)
  }

  ghost predicate AllShelvesNamed(s: State) {
    && QueueNamed(s.queue) && ScheduleNamed(s.scheduled) && RoundNamed(s.round)
    && WorkersNamed(s.workers) && ProducersNamed(s.producers)
  }

  ghost predicate Named(s: State) {
    s.unnamedDeferred || AllShelvesNamed(s)
  }

  lemma InitInv(now: int, capacity: nat)
    requires ZERO_TIME <= now
    ensures Inv(Init(now, capacity))
  {
    var s := Init(now, capacity);
    assert forall h :: Held(s, h) == [];
  }

  lemma HeldIsWellFormed(s: State, h: Holder, i: nat)
    requires Placed(s) && i < |Held(s, h)|
    ensures WellFormed(s.store.issued, s.nextMarker, Held(s, h)[i])
  {
  }
}
