// What single sections do to the tables, in terms of the tables and of what their readers see.
module LifecycleEffects {
  import opened Types
  import opened CacheModel
  import ForwarderCache
  import opened StoreModel
  import opened ScheduleModel
  import TickModel
  import opened Lifecycle

  // A result published for a live session while the manager runs: every later answer for the hash contains its
  // peers until they expire, the forwarder is due again exactly after its interval, and no other entry changes.
  lemma PublishEffect(s: State, w: ThreadId, peers: seq<Peer>, interval: int,
                      ps: seq<Peer>, at: ForwarderCache.Clock, maxPeerAge: int, t: int, g: InfoHash, other: string)
    requires WorkerEnabled(s, w, Publish(peers, interval)) && ZERO_TIME <= s.now && 0 < interval
    requires s.stop.Running? && s.workers[w].job.marker.session !in s.store.ended
    ensures var job, s' := s.workers[w].job, WorkerApply(s, w, Publish(peers, interval));
            && (ForwarderCache.Gathers(At(s'.cache, job.infoHash), ps, at, maxPeerAge) && at(job.name) < s.now + PeerAge(maxPeerAge) ==>
                  ForwarderCache.IsPart(peers, ps))
            && (ForwarderCache.Due(s'.cache, job.infoHash, job.name, t) <==> t >= s.now + interval * SECOND)
            && ((g, other) != (job.infoHash, job.name) ==>
                  && (other in At(s'.cache, g) <==> other in At(s.cache, g))
                  && (other in At(s.cache, g) ==> At(s'.cache, g)[other] == At(s.cache, g)[other]))
  {
    hide ForwarderCache.Gathers, ForwarderCache.IsPart, ForwarderCache.Due, PeerAge, UpdatePeers, At;
    var job := s.workers[w].job;
    if ForwarderCache.Gathers(At(WorkerApply(s, w, Publish(peers, interval)).cache, job.infoHash), ps, at, maxPeerAge) &&
       at(job.name) < s.now + PeerAge(maxPeerAge) {
      ForwarderCache.UpdateIsRead(s.cache, job.infoHash, job.name, peers, interval, s.now, ps, at, maxPeerAge);
    }
    ForwarderCache.UpdateSetsDue(s.cache, job.infoHash, job.name, peers, interval, s.now, t);
    if (g, other) != (job.infoHash, job.name) {
      ForwarderCache.UpdateIsLocal(s.cache, job.infoHash, job.name, peers, interval, s.now, g, other);
    }
  }

  // Of an ended session, or once stopping, nothing is written.
  lemma RefusedWrite(s: State, w: ThreadId, peers: seq<Peer>, interval: int, minutes: int, at: int)
    requires w in s.workers && s.workers[w].Executing?
    requires !s.stop.Running? || s.workers[w].job.marker.session in s.store.ended
    ensures PublishOf(s, w, peers, interval).cache == s.cache && DeferRetryOf(s, w, minutes, at).cache == s.cache
    ensures DeferRetryOf(s, w, minutes, at).workers[w] == Finishing(s.workers[w].job)
  {
  }

  // A stopped event leaves the cache of every other hash, and of this one while it keeps a local peer.
  lemma StopEventEffect(s: State, key: PeerKey, g: InfoHash)
    ensures var s' := TableApply(s, StopEvent(key));
            && (g != key.infoHash ==> At(s'.cache, g) == At(s.cache, g))
            && ((exists p :: HasPeer(s'.store, PeerKey(g, p))) ==> At(s'.cache, g) == At(s.cache, g))
  {
    hide StopPeer;
    StopIsLocal(s.store, s.cache, key, g);
    if p :| HasPeer(StopPeer(s.store, s.cache, key).0, PeerKey(g, p)) {
      StopSparesCache(s.store, s.cache, key, PeerKey(g, p));
    }
  }

  // Workers take jobs in the order in which they were queued.
  lemma TakeEffect(s: State, w: ThreadId)
    requires WorkerEnabled(s, w, Take)
    ensures var s' := WorkerApply(s, w, Take);
            s'.workers[w].Taken? && [s'.workers[w].job] + s'.queue == s.queue
  {
  }

  // The worker drops a job of an ended session, sends back one that is early, and executes every other from now on.
  lemma ExamineEffect(s: State, w: ThreadId)
    requires w in s.workers && s.workers[w].Taken?
    ensures var job, work := s.workers[w].job, WorkerApply(s, w, Examine).workers[w];
            && (job.marker.session in s.store.ended ==> work == Finishing(job))
            && (job.marker.session !in s.store.ended && job.time != ZERO_TIME && s.now < job.time ==> work == Early(job))
            && (job.marker.session !in s.store.ended && (job.time == ZERO_TIME || job.time <= s.now) ==> work == Executing(job, s.now))
  {
  }

  // No scheduled job has this hash and forwarder.
  ghost predicate UpstreamFree(sched: Schedule, job: Job) {
    forall t, j :: t in sched && j in sched[t] ==> j.infoHash != job.infoHash || j.name != job.name
  }

  lemma FreeIsNoDuplicate(sched: Schedule, job: Job)
    ensures UpstreamFree(sched, job) <==> !Duplicate(sched, job)
  {
  }

  // A retry of a live session is scheduled at the end of the slot of its cooldown's end, with a marker of its own
  // under the job's key, exactly when the manager runs and nothing is scheduled for its upstream. Else neither
  // markers nor schedule change. The old job is finished with either way.
  lemma InstallRetryEffect(s: State, w: ThreadId)
    requires w in s.workers && s.workers[w].Deferred?
    ensures var work, s' := s.workers[w], InstallRetryOf(s, w);
            var job := work.job;
            var retry := job.(time := work.until, asked := work.asked, marker := Marker(s.nextMarker, job.marker.session));
            && s'.workers[w] == Finishing(job) && s'.nextMarker > s.nextMarker
            && (if job.marker.session !in s.store.ended && s.stop.Running? && UpstreamFree(s.scheduled, job) then
                  && Slot(s'.scheduled, work.until) == Slot(s.scheduled, work.until) + [retry]
                  && (forall t :: t != work.until ==> Slot(s'.scheduled, t) == Slot(s.scheduled, t))
                  && s'.pending == s.pending[job.Key() := retry.marker]
                else s'.scheduled == s.scheduled && s'.pending == s.pending)
  {
    hide Duplicate, UpstreamFree;
    var retry := RetryJob(s, s.workers[w]);
    FreeIsNoDuplicate(s.scheduled, s.workers[w].job);
    FreeIsNoDuplicate(s.scheduled, retry);
    SameUpstreamFree(s.scheduled, s.workers[w].job, retry);
  }

  lemma SameUpstreamFree(sched: Schedule, a: Job, b: Job)
    requires a.infoHash == b.infoHash && a.name == b.name
    ensures UpstreamFree(sched, a) <==> UpstreamFree(sched, b)
  {
  }

  // An early job goes to the end of its slot under the same conditions, and is finished with otherwise.
  lemma ScheduleEarlyEffect(s: State, w: ThreadId)
    requires w in s.workers && s.workers[w].Early?
    ensures var job, s' := s.workers[w].job, ScheduleEarlyOf(s, w);
            && s'.pending == s.pending
            && (if job.marker.session !in s.store.ended && s.stop.Running? && UpstreamFree(s.scheduled, job) then
                  && Slot(s'.scheduled, job.time) == Slot(s.scheduled, job.time) + [job]
                  && (forall t :: t != job.time ==> Slot(s'.scheduled, t) == Slot(s.scheduled, t))
                  && s'.workers[w] == Idle
                else s'.scheduled == s.scheduled && s'.workers[w] == Finishing(job))
  {
    hide Duplicate, UpstreamFree;
    FreeIsNoDuplicate(s.scheduled, s.workers[w].job);
  }

  // Entering with a ready job: given up if its session ended or the manager stops; moved to the end of its
  // forwarder's suspension, or a second from now if that is over by then; queued otherwise.
  lemma EnterEffect(s: State)
    requires HeadReady(s)
    ensures var job, phase := s.round.ready[0], EnterOf(s).round.phase;
            var now, suspended := s.round.now, s.suspended;
            && (!s.stop.Running? || job.marker.session in s.store.ended ==> phase == Giving)
            && (s.stop.Running? && job.marker.session !in s.store.ended ==>
                  && (job.name in suspended && now < suspended[job.name] ==> phase == Moving(suspended[job.name]))
                  && (job.name in suspended && now == suspended[job.name] ==> phase == Moving(now + 1_000_000_000))
                  && (job.name !in suspended || suspended[job.name] < now ==> phase == Pushing))
  {
  }

  // Pushing: the job joins the queue, or a full queue sends it back for ten seconds.
  lemma PushEffect(s: State)
    requires HeadReady(s) && s.round.phase.Pushing?
    ensures |s.queue| < s.capacity ==> PushOf(s).queue == s.queue + [s.round.ready[0]]
    ensures |s.queue| >= s.capacity ==> PushOf(s).queue == s.queue && PushOf(s).round.phase == Moving(s.round.now + 10_000_000_000)
  {
  }

  // cancelPendingJobs, on the tables.
  lemma CancelEffect(s: State, key: PeerKey, session: SessionId, t: int, job: Job, k: JobKey)
    requires TableEnabled(s, CancelJobs(key, session))
    ensures var s' := TableApply(s, CancelJobs(key, session));
            && (job in Slot(s'.scheduled, t) <==>
                  job in Slot(s.scheduled, t) &&
                  !(job.infoHash == key.infoHash && job.peerID == key.peerID && job.marker.session == session))
            && (k in s'.pending ==> k in s.pending && s'.pending[k] == s.pending[k])
            && (k in s.pending && k !in s'.pending ==>
                  k.infoHash == key.infoHash && k.peerID == key.peerID && s.pending[k].session == session)
            && (k in s'.pending && k.infoHash == key.infoHash && k.peerID == key.peerID && s.pending[k].session == session ==>
                  k.name == "")
            && s'.queue == s.queue && s'.workers == s.workers
  {
    hide CancelScheduled, CancelMarkers, Slot;
    TickModel.CancelSorts(s.scheduled, key, session, t, job);
    TickModel.CancelledMarkers(s.pending, key, session, k);
  }
}
