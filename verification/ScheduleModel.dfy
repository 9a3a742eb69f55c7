// Jobs, their pending markers and the time-indexed schedule, as values: what each locked section of
// forwarderManager.go and forwarderAnnounce.go does to `pendingJobs` and `scheduledJobs`.
module ScheduleModel {
  import opened Types
  import opened StoreModel

  // A marker is the identity of one announceJobState, with the peer session it carries.
  datatype Marker = Marker(id: nat, session: SessionId)

  datatype JobKey = JobKey(infoHash: InfoHash, name: string, peerID: PeerID)

  // `time` is ScheduledTime. `asked` records the instant an upstream asked to be retried at (zero for
  // immediate jobs); the code keeps no such field, it is here to state what the retry promises.
  datatype Job = Job(infoHash: InfoHash, name: string, peerID: PeerID, time: int, asked: int, marker: Marker)
  {
    function Key(): JobKey {
      JobKey(infoHash, name, peerID)
    }

    function Peer(): PeerKey {
      PeerKey(infoHash, peerID)
    }
  }

  type Pending = map<JobKey, Marker>
  type Schedule = map<int, seq<Job>>

  // finishJob: the marker goes only if this job still owns it.
  function FinishJob(pending: Pending, job: Job): Pending {
    if job.Key() in pending && pending[job.Key()] == job.marker then pending - {job.Key()} else pending
  }

  function Slot(sched: Schedule, t: int): seq<Job> {
    if t in sched then sched[t] else []
  }

  predicate SameUpstream(a: Job, b: Job) {
    a.infoHash == b.infoHash && a.name == b.name
  }

  // scheduleJob's duplicate scan over every slot.
  predicate Duplicate(sched: Schedule, job: Job) {
    exists t :: t in sched && exists j :: j in sched[t] && SameUpstream(j, job)
  }

  predicate CanSchedule(sched: Schedule, ended: set<SessionId>, stopping: bool, job: Job) {
    job.marker.session !in ended && !stopping && !Duplicate(sched, job)
  }

  function AddJob(sched: Schedule, job: Job): Schedule {
    sched[job.time := Slot(sched, job.time) + [job]]
  }

  // What one scheduler tick decides about a scheduled job.
  datatype Fate = Cancelled | Ready | Kept

  function FateOf(job: Job, t: int, now: int, ended: set<SessionId>): Fate {
    if job.marker.session in ended then Cancelled
    else if t <= now then Ready
    else Kept
  }

  // The jobs of one slot with a given fate, in slot order.
  function Pick(js: seq<Job>, fate: Fate, t: int, now: int, ended: set<SessionId>): seq<Job> {
    if js == [] then []
    else
      var rest := Pick(js[..|js| - 1], fate, t, now, ended);
      if FateOf(js[|js| - 1], t, now, ended) == fate then rest + [js[|js| - 1]] else rest
  }

  // The jobs with a given fate over all slots, visited in some order of the slot keys.
  function Gather(sched: Schedule, order: seq<int>, fate: Fate, now: int, ended: set<SessionId>): seq<Job> {
    if order == [] then []
    else
      var t := order[|order| - 1];
      Gather(sched, order[..|order| - 1], fate, now, ended) + Pick(Slot(sched, t), fate, t, now, ended)
  }

  function KeptSlots(sched: Schedule, now: int, ended: set<SessionId>): Schedule {
    map t | t in sched && Pick(sched[t], Kept, t, now, ended) != [] :: Pick(sched[t], Kept, t, now, ended)
  }

  predicate NoRepeat(order: seq<int>) {
    forall i, j :: 0 <= i < j < |order| ==> order[i] != order[j]
  }

  // One visit to every key: any iteration order of a Go map.
  predicate Enumerates(order: seq<int>, sched: Schedule) {
    && (forall i :: 0 <= i < |order| ==> order[i] in sched)
    && (forall t :: t in sched ==> t in order)
    && NoRepeat(order)
  }

  // cancelPendingJobs, first half. The key scan misses the empty forwarder name: see JobKeys.ScanMatches.
  function CancelMarkers(pending: Pending, key: PeerKey, session: SessionId): Pending {
    map k | k in pending && !(pending[k].session == session && k.infoHash == key.infoHash && k.peerID == key.peerID && k.name != "")
      :: pending[k]
  }

  predicate OfSession(job: Job, key: PeerKey, session: SessionId) {
    job.Peer() == key && job.marker.session == session
  }

  function Others(js: seq<Job>, key: PeerKey, session: SessionId): seq<Job> {
    if js == [] then []
    else
      var rest := Others(js[..|js| - 1], key, session);
      if OfSession(js[|js| - 1], key, session) then rest else rest + [js[|js| - 1]]
  }

  // cancelPendingJobs, second half.
  function CancelScheduled(sched: Schedule, key: PeerKey, session: SessionId): Schedule {
    map t | t in sched && Others(sched[t], key, session) != [] :: Others(sched[t], key, session)
  }
}
