// Every action keeps the invariant.
module LifecycleSteps {
  import opened Types
  import opened CacheModel
  import opened StoreModel
  import opened ScheduleModel
  import opened Lifecycle
  import opened LifecycleInvariant
  import opened LifecycleMoves

  const NO_JOB := Job(InfoHash([]), "", PeerID([]), ZERO_TIME, ZERO_TIME, Marker(0, 0))

  // Nothing moves and no marker changes.
  lemma StillKeepsPlaces(s: State, s': State)
    requires Placed(s) && Later(s, s') && (MarkersKept(s') ==> MarkersKept(s))
    requires s'.pending == s.pending
    requires forall h :: Held(s', h) == Held(s, h)
    requires forall h :: Held(s', h) != [] && Claims(s', h) ==> Claims(s, h)
    ensures Placed(s')
  {
    MoveKeepsPlaces(s, s', None, None, NO_JOB);
  }

  lemma HeldSetWork(s: State, w: ThreadId, work: Work)
    ensures forall h :: Held(SetWork(s, w, work), h) == if h == AtWorker(w) then WorkHeld(work) else Held(s, h)
  {
  }

  lemma HeldSetProducer(s: State, p: ThreadId, producer: Producer)
    ensures forall h :: Held(SetProducer(s, p, producer), h) ==
                        if h == AtProducer(p) then ProducerHeld(producer) else Held(s, h)
  {
  }

  lemma WorkKeepsPlaces(s: State, w: ThreadId, work: Work, cache: Cache)
    requires Placed(s) && w in s.workers && WorkHeld(work) == WorkHeld(s.workers[w])
    requires s.workers[w].Finishing? ==> work.Finishing?
    ensures Placed(SetWork(s, w, work).(cache := cache))
  {
    hide Placed;
    HeldSetWork(s, w, work);
    var s' := SetWork(s, w, work).(cache := cache);
    assert forall h :: Held(s', h) == Held(SetWork(s, w, work), h);
    StillKeepsPlaces(s, s');
  }

  lemma WorkKeepsLocal(s: State, w: ThreadId, work: Work, cache: Cache)
    requires Local(s) && w in s.workers && WorkPunctual(work, s.now) && StoreOk(s.store, cache)
    ensures Local(SetWork(s, w, work).(cache := cache))
  {
    hide StoreOk, MarkersOk, ScheduleOk, ProducersOk, RoundPunctual, WorkPunctual;
  }

  // A worker that keeps its job.
  lemma WorkKeepsInv(s: State, w: ThreadId, work: Work, cache: Cache)
    requires Inv(s) && w in s.workers && WorkHeld(work) == WorkHeld(s.workers[w])
    requires s.workers[w].Finishing? ==> work.Finishing?
    requires WorkPunctual(work, s.now) && StoreOk(s.store, cache)
    ensures Inv(SetWork(s, w, work).(cache := cache))
  {
    hide Local, Placed;
    WorkKeepsPlaces(s, w, work, cache);
    WorkKeepsLocal(s, w, work, cache);
  }

  // The store only grows its history: markers and producers stay well formed.
  lemma GrowKeepsInv(s: State, store: Store, cache: Cache)
    requires Inv(s) && StoreOk(store, cache) && Grows(s.store, store)
    ensures Inv(s.(store := store, cache := cache))
  {
    hide Placed, StoreOk, ScheduleOk;
    var s' := s.(store := store, cache := cache);
    assert forall h :: Held(s', h) == Held(s, h);
    StillKeepsPlaces(s, s');
  }

  lemma StepAnnounce(s: State, request: Request)
    requires Inv(s)
    ensures Inv(TableApply(s, Announce(request)))
  {
    hide Placed;
    UpdateKeeps(s.store, request);
    GrowKeepsInv(s, Update(s.store, request).0, s.cache);
  }

  lemma StepStopEvent(s: State, key: PeerKey)
    requires Inv(s)
    ensures Inv(TableApply(s, StopEvent(key)))
  {
    hide Placed;
    StopPeerKeeps(s.store, s.cache, key);
    var (st, c) := StopPeer(s.store, s.cache, key);
    GrowKeepsInv(s, st, c);
  }

  lemma StepPurge(s: State, age: int)
    requires Inv(s)
    ensures Inv(TableApply(s, PurgePeers(age)))
  {
    hide Placed;
    PurgeKeeps(s.store, s.cache, s.now, age);
    var (st, c) := Purge(s.store, s.cache, s.now, age);
    GrowKeepsInv(s, st, c);
  }

  lemma StepCloseCancel(s: State)
    requires Inv(s)
    ensures Inv(TableApply(s, CloseCancel))
  {
    hide Placed;
    CloseKeeps(s.store);
    GrowKeepsInv(s, CancelAll(s.store), s.cache);
  }

  lemma StepCloseClear(s: State)
    requires Inv(s) && TableEnabled(s, CloseClear)
    ensures Inv(TableApply(s, CloseClear))
  {
    hide Placed;
    CloseKeeps(s.store);
    GrowKeepsInv(s, ClearSessions(s.store), s.cache);
  }

  lemma StepPrune(s: State, at: int, maxPeerAge: int)
    requires Inv(s) && TableEnabled(s, PruneCache(at, maxPeerAge))
    ensures Inv(TableApply(s, PruneCache(at, maxPeerAge)))
  {
    hide Placed, Valid;
    GrowKeepsInv(s, s.store, Prune(s.cache, at, maxPeerAge));
  }

  lemma StepDisable(s: State, name: string)
    requires Inv(s)
    ensures Inv(TableApply(s, DisableForwarder(name)))
  {
    hide Placed, Valid;
    GrowKeepsInv(s, s.store, WithoutForwarder(s.cache, name));
  }

  lemma StepClock(s: State, to: int)
    requires Inv(s) && Enabled(s, Clock(to))
    ensures Inv(Apply(s, Clock(to)))
  {
    hide Placed, StoreOk, MarkersOk, ScheduleOk, ProducersOk;
    assert forall h :: Held(s.(now := to), h) == Held(s, h);
    StillKeepsPlaces(s, s.(now := to));
  }

  lemma StepSuspend(s: State, name: string, until: int)
    requires Inv(s)
    ensures Inv(TableApply(s, Suspend(name, until)))
  {
    hide Placed, StoreOk, MarkersOk, ScheduleOk, ProducersOk, WorkersPunctual, RoundPunctual;
    var s' := s.(suspended := s.suspended[name := until]);
    assert forall h :: Held(s', h) == Held(s, h);
    StillKeepsPlaces(s, s');
  }

  // Producers

  lemma StepBegin(s: State, p: ThreadId, key: PeerKey, session: SessionId)
    requires Inv(s) && ProducerEnabled(s, p, Begin(key, session))
    ensures Inv(ProducerApply(s, p, Begin(key, session)))
  {
    hide Placed, StoreOk, MarkersOk, ScheduleOk, WorkersPunctual, RoundPunctual;
    var s' := SetProducer(s, p, Offering(key, session));
    HeldSetProducer(s, p, Offering(key, session));
    StillKeepsPlaces(s, s');
  }

  lemma StepEnd(s: State, p: ThreadId)
    requires Inv(s) && ProducerEnabled(s, p, End)
    ensures Inv(ProducerApply(s, p, End))
  {
    hide Placed, StoreOk, MarkersOk, ScheduleOk, WorkersPunctual, RoundPunctual;
    var s' := s.(producers := s.producers - {p});
    assert forall h :: Held(s', h) == Held(s, h);
    StillKeepsPlaces(s, s');
  }

  lemma StepReserve(s: State, p: ThreadId, name: string)
    requires Inv(s) && ProducerEnabled(s, p, Reserve(name))
    ensures Inv(ProducerApply(s, p, Reserve(name)))
  {
    hide Placed, StoreOk, ScheduleOk, WorkersPunctual, RoundPunctual;
    var s' := ReserveOf(s, p, name);
    if s' != s {
      FreshReservation(s, s', p, name);
    }
  }

  lemma MovesReserve(s: State, s': State, p: ThreadId, name: string)
    requires p in s.producers && s.producers[p].Offering? && s' == ReserveOf(s, p, name) && s' != s
    ensures s'.producers[p].Sending? && Moved(s, s', None, Some(AtProducer(p)), s'.producers[p].job)
  {
    HeldSetProducer(s, p, s'.producers[p]);
    assert forall h :: Held(s', h) == Held(SetProducer(s, p, s'.producers[p]), h);
  }

  lemma FreshReservation(s: State, s': State, p: ThreadId, name: string)
    requires Placed(s) && ProducersOk(s.producers, s.store.issued)
    requires p in s.producers && s.producers[p].Offering? && s' == ReserveOf(s, p, name) && s' != s
    ensures Placed(s')
  {
    MovesReserve(s, s', p, name);
    InsertKeepsPlaces(s, s', AtProducer(p), s'.producers[p].job);
  }

  // A new job joined with a fresh marker under its key.
  ghost predicate Inserted(s: State, s': State, dst: Holder, job: Job) {
    && Moved(s, s', None, Some(dst), job)
    && s'.pending == s.pending[job.Key() := job.marker]
    && s'.store == s.store && s'.stop == s.stop && s.nextMarker <= s'.nextMarker && s'.unnamedDeferred == s.unnamedDeferred
  }

  lemma InsertedNoLeak(s: State, s': State, dst: Holder, job: Job)
    requires Inserted(s, s', dst, job) && NoLeak(s)
    ensures NoLeak(s')
  {
    hide Moved;
    forall key | key in s'.pending && Tracked(s', key) ensures HasHolder(s', key, s'.pending[key]) {
      if key == job.Key() {
        InsertedIsHeld(s, s', dst, job);
      } else {
        MovedHolder(s, s', None, Some(dst), job, key, s.pending[key]);
      }
    }
  }

  lemma InsertedIsHeld(s: State, s': State, dst: Holder, job: Job)
    requires Inserted(s, s', dst, job)
    ensures HasHolder(s', job.Key(), job.marker)
  {
    assert Held(s', dst)[|Held(s, dst)|] == job;
  }

  // No live job that keeps its claim has this key.
  ghost predicate KeyIsFree(s: State, s': State, key: JobKey) {
    forall h, i :: 0 <= i < |Held(s, h)| && Claims(s, h) && Claims(s', h) && !Ended(s, Held(s, h)[i]) ==>
      Held(s, h)[i].Key() != key
  }

  lemma InsertedOwnership(s: State, s': State, dst: Holder, job: Job)
    requires Inserted(s, s', dst, job) && Ownership(s) && KeyIsFree(s, s', job.Key())
    requires forall h :: Held(s, h) != [] && Claims(s', h) ==> Claims(s, h)
    ensures Ownership(s')
  {
    forall h, i | 0 <= i < |Held(s', h)| && Claims(s', h) && !Ended(s', Held(s', h)[i])
      ensures Owns(s', Held(s', h)[i])
    {
      if !(h == dst && i == |Held(s, dst)|) {
        assert Held(s', h)[i] == Held(s, h)[i];
        assert Owns(s, Held(s, h)[i]);
      }
    }
  }

  // A new job under a key that no live job claims any more.
  lemma InsertKeepsPlaces(s: State, s': State, dst: Holder, job: Job)
    requires Placed(s) && Inserted(s, s', dst, job) && WellFormed(s'.store.issued, s'.nextMarker, job)
    requires MarkersKept(s) ==> KeyIsFree(s, s', job.Key())
    requires forall h :: Held(s, h) != [] && Claims(s', h) ==> Claims(s, h)
    ensures Placed(s')
  {
    hide NoLeak, Ownership, OnePlace, JobsWellFormed;
    MovedOnePlace(s, s', None, Some(dst), job);
    MovedWellFormed(s, s', None, Some(dst), job);
    InsertedNoLeak(s, s', dst, job);
    if MarkersKept(s) {
      InsertedOwnership(s, s', dst, job);
    }
  }

  lemma MovesSend(s: State, p: ThreadId)
    requires p in s.producers && s.producers[p].Sending? && |s.queue| < s.capacity
    ensures Moved(s, SendOf(s, p), Some(AtProducer(p)), Some(InQueue), s.producers[p].job)
  {
    var Sending(key, session, job) := s.producers[p];
    HeldSetProducer(s, p, Offering(key, session));
    assert Held(s, AtProducer(p)) == [job];
    assert forall h :: h != InQueue ==> Held(SendOf(s, p), h) == Held(SetProducer(s, p, Offering(key, session)), h);
  }

  lemma ProducersKeepLocal(s: State, producers: map<ThreadId, Producer>, queue: seq<Job>)
    requires Local(s) && ProducersOk(producers, s.store.issued) && |queue| <= s.capacity && s.stop.Running?
    ensures Local(s.(producers := producers, queue := queue))
  {
    hide StoreOk, MarkersOk, ScheduleOk, ProducersOk, WorkersPunctual, RoundPunctual;
  }

  lemma SendKeepsLocal(s: State, p: ThreadId)
    requires Local(s) && p in s.producers && s.producers[p].Sending?
    ensures Local(SendOf(s, p))
  {
    hide StoreOk, MarkersOk, ScheduleOk, WorkersPunctual, RoundPunctual, Local;
    var Sending(key, session, job) := s.producers[p];
    LocalProducers(s);
    if |s.queue| < s.capacity {
      ProducersKeepLocal(s, s.producers[p := Offering(key, session)], s.queue + [job]);
    } else {
      ProducersKeepLocal(s, s.producers[p := Refused(key, session, job)], s.queue);
    }
  }

  lemma LocalProducers(s: State)
    requires Local(s)
    ensures ProducersOk(s.producers, s.store.issued) && |s.queue| <= s.capacity && (s.producers != map[] ==> s.stop.Running?)
  {
  }

  lemma SendKeepsPlaces(s: State, p: ThreadId)
    requires Placed(s) && p in s.producers && s.producers[p].Sending?
    ensures Placed(SendOf(s, p))
  {
    hide Placed, Moved, ClaimsKept;
    var Sending(key, session, job) := s.producers[p];
    var src := AtProducer(p);
    HeldIsWellFormed(s, src, 0);
    if |s.queue| < s.capacity {
      MovesSend(s, p);
      AlwaysClaims(s, SendOf(s, p), Some(src), Some(InQueue));
      MoveKeepsPlaces(s, SendOf(s, p), Some(src), Some(InQueue), job);
    } else {
      HeldSetProducer(s, p, Refused(key, session, job));
      StillKeepsPlaces(s, SendOf(s, p));
    }
  }

  lemma StepSend(s: State, p: ThreadId)
    requires Inv(s) && ProducerEnabled(s, p, Send)
    ensures Inv(ProducerApply(s, p, Send))
  {
    hide Local, Placed, SendOf;
    SendKeepsLocal(s, p);
    SendKeepsPlaces(s, p);
  }

  // Claims depend on the workers alone.
  lemma AlwaysClaims(s: State, s': State, src: Option<Holder>, dst: Option<Holder>)
    requires s'.workers == s.workers
    requires src.Some? ==> !src.value.AtWorker?
    requires dst.Some? ==> !dst.value.AtWorker?
    ensures ClaimsKept(s, s', src, dst)
  {
  }

  lemma FinishKeepsMarkers(pending: Pending, issued: seq<PeerKey>, nextMarker: nat, job: Job)
    requires MarkersOk(pending, issued, nextMarker)
    ensures MarkersOk(FinishJob(pending, job), issued, nextMarker)
  {
  }

  lemma StepTakeBack(s: State, p: ThreadId)
    requires Inv(s) && ProducerEnabled(s, p, TakeBack)
    ensures Inv(ProducerApply(s, p, TakeBack))
  {
    hide Placed, StoreOk, MarkersOk, ScheduleOk, WorkersPunctual, RoundPunctual, FinishJob;
    var job := s.producers[p].job;
    var s' := s.(producers := s.producers - {p}, pending := FinishJob(s.pending, job));
    FinishKeepsMarkers(s.pending, s.store.issued, s.nextMarker, job);
    assert Moved(s, s', Some(AtProducer(p)), None, NO_JOB);
    MoveKeepsPlaces(s, s', Some(AtProducer(p)), None, NO_JOB);
  }

  // Workers

  lemma StepSpawn(s: State, w: ThreadId)
    requires Inv(s) && WorkerEnabled(s, w, Spawn)
    ensures Inv(WorkerApply(s, w, Spawn))
  {
    hide Placed, StoreOk, MarkersOk, ScheduleOk, ProducersOk, RoundPunctual;
    var s' := SetWork(s, w, Idle);
    HeldSetWork(s, w, Idle);
    StillKeepsPlaces(s, s');
  }

  lemma StepExit(s: State, w: ThreadId)
    requires Inv(s) && WorkerEnabled(s, w, Exit)
    ensures Inv(WorkerApply(s, w, Exit))
  {
    hide Placed, StoreOk, MarkersOk, ScheduleOk, ProducersOk, RoundPunctual;
    var s' := s.(workers := s.workers - {w});
    assert forall h :: Held(s', h) == Held(s, h);
    StillKeepsPlaces(s, s');
  }

  lemma StepTake(s: State, w: ThreadId)
    requires Inv(s) && WorkerEnabled(s, w, Take)
    ensures Inv(WorkerApply(s, w, Take))
  {
    hide Placed, StoreOk, MarkersOk, ScheduleOk, ProducersOk, RoundPunctual;
    var job := s.queue[0];
    var s' := SetWork(s, w, Taken(job)).(queue := s.queue[1..]);
    assert Held(s, InQueue)[0] == job;
    HeldIsWellFormed(s, InQueue, 0);
    HeldSetWork(s, w, Taken(job));
    assert Moved(s, s', Some(InQueue), Some(AtWorker(w)), job) by {
      assert forall h :: h != InQueue ==> Held(s', h) == Held(SetWork(s, w, Taken(job)), h);
    }
    MoveKeepsPlaces(s, s', Some(InQueue), Some(AtWorker(w)), job);
  }

  lemma StepExamine(s: State, w: ThreadId)
    requires Inv(s) && WorkerEnabled(s, w, Examine)
    ensures Inv(WorkerApply(s, w, Examine))
  {
    hide Placed, StoreOk, MarkersOk, ScheduleOk, ProducersOk, RoundPunctual;
    WorkKeepsPlaces(s, w, Examined(s.workers[w].job, s.now, s.store.ended), s.cache);
  }

  // Scheduling a job that no scheduled job duplicates, under its own time.
  lemma AddKeepsSchedule(sched: Schedule, job: Job)
    requires ScheduleOk(sched) && !Duplicate(sched, job)
    ensures ScheduleOk(AddJob(sched, job))
  {
    var sched' := AddJob(sched, job);
    forall t, i | t in sched && 0 <= i < |sched[t]| ensures !SameUpstream(sched[t][i], job) {
      assert sched[t][i] in sched[t];
    }
    forall t, i, u, j |
      t in sched' && 0 <= i < |sched'[t]| && u in sched' && 0 <= j < |sched'[u]| && SameUpstream(sched'[t][i], sched'[u][j])
      ensures t == u && i == j
    {
      var newT := t == job.time && i == |Slot(sched, t)|;
      var newU := u == job.time && j == |Slot(sched, u)|;
      assert !newT ==> t in sched && i < |sched[t]| && sched'[t][i] == sched[t][i];
      assert !newU ==> u in sched && j < |sched[u]| && sched'[u][j] == sched[u][j];
    }
  }

  lemma HeldAddJob(s: State, job: Job)
    ensures forall h :: Held(s.(scheduled := AddJob(s.scheduled, job)), h) ==
                        if h == InSlot(job.time) then Held(s, h) + [job] else Held(s, h)
  {
  }

  lemma MovesScheduleEarly(s: State, w: ThreadId)
    requires w in s.workers && s.workers[w].Early?
    requires CanSchedule(s.scheduled, s.store.ended, Stopping(s), s.workers[w].job)
    ensures var job := s.workers[w].job;
            Moved(s, ScheduleEarlyOf(s, w), Some(AtWorker(w)), Some(InSlot(job.time)), job)
  {
    hide Duplicate, AddJob;
    var job := s.workers[w].job;
    HeldSetWork(s, w, Idle);
    HeldAddJob(SetWork(s, w, Idle), job);
    assert Held(s, AtWorker(w)) == [job];
  }

  lemma ScheduleEarlyKeepsLocal(s: State, w: ThreadId)
    requires Local(s) && w in s.workers && s.workers[w].Early?
    ensures Local(ScheduleEarlyOf(s, w))
  {
    hide StoreOk, MarkersOk, ScheduleOk, ProducersOk, RoundPunctual, Duplicate, AddJob;
    var job := s.workers[w].job;
    if CanSchedule(s.scheduled, s.store.ended, Stopping(s), job) {
      AddKeepsSchedule(s.scheduled, job);
    }
  }

  lemma ScheduleEarlyKeepsPlaces(s: State, w: ThreadId)
    requires Placed(s) && w in s.workers && s.workers[w].Early?
    ensures Placed(ScheduleEarlyOf(s, w))
  {
    hide Placed, Duplicate, AddJob, Moved;
    var job := s.workers[w].job;
    HeldIsWellFormed(s, AtWorker(w), 0);
    if CanSchedule(s.scheduled, s.store.ended, Stopping(s), job) {
      MovesScheduleEarly(s, w);
      MoveKeepsPlaces(s, ScheduleEarlyOf(s, w), Some(AtWorker(w)), Some(InSlot(job.time)), job);
    } else {
      WorkKeepsPlaces(s, w, Finishing(job), s.cache);
    }
  }

  lemma StepScheduleEarly(s: State, w: ThreadId)
    requires Inv(s) && WorkerEnabled(s, w, ScheduleEarly)
    ensures Inv(WorkerApply(s, w, ScheduleEarly))
  {
    hide Local, Placed, ScheduleEarlyOf;
    ScheduleEarlyKeepsLocal(s, w);
    ScheduleEarlyKeepsPlaces(s, w);
  }

  // The session of a live job is its peer's current one, and the peer is still stored.
  lemma LiveJobIsCurrent(s: State, h: Holder, i: nat)
    requires Inv(s) && i < |Held(s, h)| && !Ended(s, Held(s, h)[i])
    ensures var job := Held(s, h)[i];
            && job.Peer() in s.store.sessions && s.store.sessions[job.Peer()] == job.marker.session
            && HasPeer(s.store, job.Peer())
  {
    hide Placed;
    HeldIsWellFormed(s, h, i);
  }

  lemma PutKeepsCache(st: Store, c: Cache, h: InfoHash, f: Forwarders)
    requires StoreOk(st, c) && h in st.requests && f != map[]
    ensures StoreOk(st, c[h := f])
  {
  }

  lemma StepPublish(s: State, w: ThreadId, peers: seq<Peer>, interval: int)
    requires Inv(s) && WorkerEnabled(s, w, Publish(peers, interval))
    ensures Inv(WorkerApply(s, w, Publish(peers, interval)))
  {
    hide Inv, StoreOk;
    var job := s.workers[w].job;
    StoreIsOk(s);
    if MayWrite(s, job) {
      PublishKeepsCache(s, w, peers, interval);
    }
    WorkKeepsInv(s, w, Finishing(job), PublishOf(s, w, peers, interval).cache);
  }

  lemma StoreIsOk(s: State)
    requires Inv(s)
    ensures StoreOk(s.store, s.cache)
  {
    hide Placed, StoreOk;
  }

  lemma PublishKeepsCache(s: State, w: ThreadId, peers: seq<Peer>, interval: int)
    requires Inv(s) && w in s.workers && s.workers[w].Executing? && MayWrite(s, s.workers[w].job)
    ensures StoreOk(s.store, PublishOf(s, w, peers, interval).cache)
  {
    hide Inv, StoreOk;
    var job := s.workers[w].job;
    assert Held(s, AtWorker(w))[0] == job;
    LiveJobIsCurrent(s, AtWorker(w), 0);
    StoreIsOk(s);
    var f := PublishOf(s, w, peers, interval).cache[job.infoHash];
    assert job.name in f;
    PutKeepsCache(s.store, s.cache, job.infoHash, f);
  }

  lemma StepAbandon(s: State, w: ThreadId)
    requires Inv(s) && WorkerEnabled(s, w, Abandon)
    ensures Inv(WorkerApply(s, w, Abandon))
  {
    hide Inv, StoreOk;
    StoreIsOk(s);
    WorkKeepsInv(s, w, Finishing(s.workers[w].job), s.cache);
  }

  // A deferral never ends before it was asked for, and leaves an entry behind.
  lemma DeferIsLater(c: Cache, h: InfoHash, name: string, until: int)
    requires ZERO_TIME <= until
    ensures var (c', at) := DeferAnnounce(c, h, name, until);
            && until <= at && h in c' && name in c'[h] && c' == c[h := c'[h]]
  {
  }

  lemma StartedAfterZero(s: State, w: ThreadId)
    requires WorkersPunctual(s.workers, s.now) && w in s.workers && s.workers[w].Executing?
    ensures ZERO_TIME <= s.workers[w].since
  {
  }

  // Recording a deferral exempts the markers of the unnamed forwarder.
  lemma RecordKeepsPlaces(s: State, unnamedDeferred: bool)
    requires Placed(s) && (s.unnamedDeferred ==> unnamedDeferred)
    ensures Placed(s.(unnamedDeferred := unnamedDeferred))
  {
    hide Placed;
    var s' := s.(unnamedDeferred := unnamedDeferred);
    assert forall h :: Held(s', h) == Held(s, h);
    StillKeepsPlaces(s, s');
  }

  lemma DeferKeepsPlaces(s: State, w: ThreadId, asked: int, until: int, c: Cache)
    requires Placed(s) && w in s.workers && s.workers[w].Executing?
    ensures var job := s.workers[w].job;
            Placed(SetWork(s, w, Deferred(job, asked, until)).(cache := c, unnamedDeferred := s.unnamedDeferred || job.name == ""))
  {
    hide Placed;
    var job := s.workers[w].job;
    WorkKeepsPlaces(s, w, Deferred(job, asked, until), c);
    RecordKeepsPlaces(SetWork(s, w, Deferred(job, asked, until)).(cache := c), s.unnamedDeferred || job.name == "");
  }

  lemma DeferKeepsCache(s: State, w: ThreadId, asked: int)
    requires Inv(s) && w in s.workers && s.workers[w].Executing? && !Ended(s, s.workers[w].job) && ZERO_TIME <= asked
    ensures var job := s.workers[w].job;
            var (c, until) := DeferAnnounce(s.cache, job.infoHash, job.name, asked);
            StoreOk(s.store, c) && asked <= until
  {
    hide Placed, StoreOk, MarkersOk, ScheduleOk, ProducersOk, WorkersPunctual, RoundPunctual, StopOk, DeferAnnounce;
    var job := s.workers[w].job;
    assert Held(s, AtWorker(w))[0] == job;
    LiveJobIsCurrent(s, AtWorker(w), 0);
    DeferIsLater(s.cache, job.infoHash, job.name, asked);
    var (c, until) := DeferAnnounce(s.cache, job.infoHash, job.name, asked);
    assert job.name in c[job.infoHash];
    PutKeepsCache(s.store, s.cache, job.infoHash, c[job.infoHash]);
  }

  lemma StepDeferRetry(s: State, w: ThreadId, minutes: int, at: int)
    requires Inv(s) && WorkerEnabled(s, w, DeferRetry(minutes, at))
    ensures Inv(WorkerApply(s, w, DeferRetry(minutes, at)))
  {
    hide Placed, StoreOk, MarkersOk, ScheduleOk, ProducersOk, RoundPunctual, DeferAnnounce;
    var job := s.workers[w].job;
    if MayWrite(s, job) {
      StartedAfterZero(s, w);
      var asked := at + minutes * MINUTE;
      var (c, until) := DeferAnnounce(s.cache, job.infoHash, job.name, asked);
      DeferKeepsCache(s, w, asked);
      DeferKeepsPlaces(s, w, asked, until, c);
    } else {
      WorkKeepsPlaces(s, w, Finishing(job), s.cache);
    }
  }

  lemma StepFinish(s: State, w: ThreadId)
    requires Inv(s) && WorkerEnabled(s, w, Finish)
    ensures Inv(WorkerApply(s, w, Finish))
  {
    hide Placed, StoreOk, MarkersOk, ScheduleOk, ProducersOk, RoundPunctual, FinishJob;
    var job := s.workers[w].job;
    var s' := SetWork(s, w, Idle).(pending := FinishJob(s.pending, job));
    FinishKeepsMarkers(s.pending, s.store.issued, s.nextMarker, job);
    HeldSetWork(s, w, Idle);
    assert Moved(s, s', Some(AtWorker(w)), None, NO_JOB) by {
      assert forall h :: Held(s', h) == Held(SetWork(s, w, Idle), h);
    }
    MoveKeepsPlaces(s, s', Some(AtWorker(w)), None, NO_JOB);
  }

  lemma MoreMarkersOk(pending: Pending, issued: seq<PeerKey>, nextMarker: nat)
    requires MarkersOk(pending, issued, nextMarker)
    ensures MarkersOk(pending, issued, nextMarker + 1)
    ensures forall job :: WellFormed(issued, nextMarker + 1, job) ==>
      MarkersOk(pending[job.Key() := job.marker], issued, nextMarker + 1)
  {
  }

  lemma InstallRetryKeepsLocal(s: State, w: ThreadId)
    requires Inv(s) && w in s.workers && s.workers[w].Deferred?
    ensures Local(InstallRetryOf(s, w))
  {
    hide Placed, StoreOk, MarkersOk, ScheduleOk, ProducersOk, RoundPunctual, Duplicate, AddJob;
    var retry := RetryJob(s, s.workers[w]);
    MoreMarkersOk(s.pending, s.store.issued, s.nextMarker);
    HeldIsWellFormed(s, AtWorker(w), 0);
    if CanSchedule(s.scheduled, s.store.ended, Stopping(s), retry) {
      AddKeepsSchedule(s.scheduled, retry);
      assert WellFormed(s.store.issued, s.nextMarker + 1, retry);
    }
  }

  lemma StepInstallRetry(s: State, w: ThreadId)
    requires Inv(s) && WorkerEnabled(s, w, InstallRetry)
    ensures Inv(WorkerApply(s, w, InstallRetry))
  {
    hide Local, Placed, InstallRetryOf, Duplicate;
    InstallRetryKeepsLocal(s, w);
    if CanSchedule(s.scheduled, s.store.ended, Stopping(s), RetryJob(s, s.workers[w])) {
      RetryTakesOver(s, w);
    } else {
      RefusedRetry(s, w);
    }
  }

  lemma RefusedRetry(s: State, w: ThreadId)
    requires Placed(s) && w in s.workers && s.workers[w].Deferred?
    requires !CanSchedule(s.scheduled, s.store.ended, Stopping(s), RetryJob(s, s.workers[w]))
    ensures Placed(InstallRetryOf(s, w))
  {
    hide Placed, Duplicate;
    var s1 := SetWork(s, w, Finishing(s.workers[w].job));
    HeldSetWork(s, w, Finishing(s.workers[w].job));
    assert forall h :: Held(InstallRetryOf(s, w), h) == Held(s1, h);
    StillKeepsPlaces(s, InstallRetryOf(s, w));
  }

  lemma InsertsRetry(s: State, w: ThreadId)
    requires w in s.workers && s.workers[w].Deferred?
    requires CanSchedule(s.scheduled, s.store.ended, Stopping(s), RetryJob(s, s.workers[w]))
    ensures var retry := RetryJob(s, s.workers[w]);
            Inserted(s, InstallRetryOf(s, w), InSlot(retry.time), retry)
  {
    hide Duplicate, AddJob;
    var retry := RetryJob(s, s.workers[w]);
    var s1 := SetWork(s, w, Finishing(s.workers[w].job));
    HeldSetWork(s, w, Finishing(s.workers[w].job));
    HeldAddJob(s1, retry);
    assert forall h :: Held(InstallRetryOf(s, w), h) == Held(s1.(scheduled := AddJob(s.scheduled, retry)), h);
  }

  // The retry inherits the key of the executing job, the only live claimant, which stops claiming it.
  lemma RetryTakesOver(s: State, w: ThreadId)
    requires Inv(s) && w in s.workers && s.workers[w].Deferred?
    requires CanSchedule(s.scheduled, s.store.ended, Stopping(s), RetryJob(s, s.workers[w]))
    ensures Placed(InstallRetryOf(s, w))
  {
    hide Placed, StoreOk, MarkersOk, ScheduleOk, ProducersOk, RoundPunctual, Duplicate, AddJob, Inserted, KeyIsFree;
    var s' := InstallRetryOf(s, w);
    var retry := RetryJob(s, s.workers[w]);
    HeldIsWellFormed(s, AtWorker(w), 0);
    InsertsRetry(s, w);
    if MarkersKept(s) {
      OnlyClaimant(s, s', AtWorker(w), 0);
    }
    InsertKeepsPlaces(s, s', InSlot(retry.time), retry);
  }

  // A live job's key is free once that job stops claiming it.
  lemma OnlyClaimant(s: State, s': State, h: Holder, i: nat)
    requires Placed(s) && MarkersKept(s) && i < |Held(s, h)| && Claims(s, h) && !Ended(s, Held(s, h)[i])
    requires !Claims(s', h)
    ensures KeyIsFree(s, s', Held(s, h)[i].Key())
  {
    forall g, j | 0 <= j < |Held(s, g)| && Claims(s, g) && Claims(s', g) && !Ended(s, Held(s, g)[j])
      ensures Held(s, g)[j].Key() != Held(s, h)[i].Key()
    {
      assert Owns(s, Held(s, g)[j]) && Owns(s, Held(s, h)[i]);
    }
  }

  // The scheduler

  // The scheduler changes its own round and nothing moves.
  lemma RoundKeepsInv(s: State, round: Round, suspended: map<string, int>)
    requires Inv(s)
    requires var s' := s.(round := round, suspended := suspended);
             && StopOk(s') && RoundPunctual(round, s.now)
             && Held(s', InDropped) == Held(s, InDropped) && Held(s', InReady) == Held(s, InReady)
    ensures Inv(s.(round := round, suspended := suspended))
  {
    hide Placed, StoreOk, MarkersOk, ScheduleOk, ProducersOk, WorkersPunctual, RoundPunctual;
    var s' := s.(round := round, suspended := suspended);
    assert forall h :: Held(s', h) == Held(s, h);
    StillKeepsPlaces(s, s');
  }

  lemma StepScheduler(s: State)
    requires Inv(s)
    ensures RoundEnabled(s, StartScheduler) ==> Inv(RoundApply(s, StartScheduler))
    ensures RoundEnabled(s, ExitScheduler) ==> Inv(RoundApply(s, ExitScheduler))
    ensures RoundEnabled(s, EndRound) ==> Inv(RoundApply(s, EndRound))
  {
    hide Placed, StoreOk, MarkersOk, ScheduleOk, ProducersOk, WorkersPunctual;
    if RoundEnabled(s, StartScheduler) || RoundEnabled(s, EndRound) {
      RoundKeepsInv(s, Waiting, s.suspended);
    }
    if RoundEnabled(s, ExitScheduler) {
      RoundKeepsInv(s, Off, s.suspended);
    }
  }

  lemma StepDropOne(s: State)
    requires Inv(s) && RoundEnabled(s, DropOne)
    ensures Inv(RoundApply(s, DropOne))
  {
    hide Placed, StoreOk, MarkersOk, ScheduleOk, ProducersOk, WorkersPunctual, FinishJob;
    var s' := RoundApply(s, DropOne);
    FinishKeepsMarkers(s.pending, s.store.issued, s.nextMarker, s.round.dropped[0]);
    assert Moved(s, s', Some(InDropped), None, NO_JOB);
    MoveKeepsPlaces(s, s', Some(InDropped), None, NO_JOB);
  }

  lemma PhaseChange(s: State, phase: Phase, suspended: map<string, int>)
    requires Local(s) && HeadReady(s)
    requires phase.Pushing? || phase.Moving? ==> s.stop.Running?
    requires phase.Moving? ==> s.round.now < phase.at
    ensures var s' := s.(round := s.round.(phase := phase), suspended := suspended);
            && StopOk(s') && RoundPunctual(s'.round, s.now)
            && Held(s', InDropped) == Held(s, InDropped) && Held(s', InReady) == Held(s, InReady)
  {
    hide StoreOk, MarkersOk, ScheduleOk, ProducersOk, WorkersPunctual;
  }

  lemma EnteredRound(s: State)
    requires Local(s) && HeadReady(s) && s.round.phase.Unlocked?
    ensures var s' := EnterOf(s);
            && s' == s.(round := s'.round, suspended := s'.suspended)
            && StopOk(s') && RoundPunctual(s'.round, s.now)
            && Held(s', InDropped) == Held(s, InDropped) && Held(s', InReady) == Held(s, InReady)
  {
    hide Local, StopOk, RoundPunctual, Suspension, Held;
    var s' := EnterOf(s);
    PhaseChange(s, s'.round.phase, s'.suspended);
  }

  lemma StepEnter(s: State)
    requires Inv(s) && RoundEnabled(s, Enter)
    ensures Inv(RoundApply(s, Enter))
  {
    hide Local, Placed, EnterOf;
    EnteredRound(s);
    RoundKeepsInv(s, EnterOf(s).round, EnterOf(s).suspended);
  }

  lemma MovesPush(s: State)
    requires HeadReady(s) && |s.queue| < s.capacity
    ensures Moved(s, PushOf(s), Some(InReady), Some(InQueue), s.round.ready[0])
  {
    assert Held(s, InReady)[0] == s.round.ready[0];
  }

  lemma StepPush(s: State)
    requires Inv(s) && RoundEnabled(s, Push)
    ensures Inv(RoundApply(s, Push))
  {
    hide Placed, StoreOk, MarkersOk, ScheduleOk, ProducersOk, WorkersPunctual, Moved, ClaimsKept;
    if |s.queue| < s.capacity {
      PushKeepsPlaces(s);
    } else {
      var round := s.round.(phase := Moving(s.round.now + 10 * SECOND));
      RoundKeepsInv(s, round, s.suspended);
    }
  }

  lemma PushKeepsPlaces(s: State)
    requires Placed(s) && HeadReady(s) && |s.queue| < s.capacity
    ensures Placed(PushOf(s))
  {
    hide Placed, Moved, ClaimsKept;
    HeldIsWellFormed(s, InReady, 0);
    MovesPush(s);
    AlwaysClaims(s, PushOf(s), Some(InReady), Some(InQueue));
    MoveKeepsPlaces(s, PushOf(s), Some(InReady), Some(InQueue), s.round.ready[0]);
  }

  lemma MovesMove(s: State)
    requires HeadReady(s) && s.round.phase.Moving?
    requires CanSchedule(s.scheduled, s.store.ended, Stopping(s), s.round.ready[0].(time := s.round.phase.at))
    ensures var job := s.round.ready[0].(time := s.round.phase.at);
            Moved(s, MoveOf(s), Some(InReady), Some(InSlot(job.time)), job)
  {
    hide Duplicate, AddJob;
    var job := s.round.ready[0].(time := s.round.phase.at);
    assert Held(s, InReady)[0] == s.round.ready[0];
    HeldAddJob(NextReady(s), job);
    assert forall h :: h != InReady ==> Held(NextReady(s), h) == Held(s, h);
  }

  lemma MovedOnKeepsPlaces(s: State)
    requires Placed(s) && RoundPunctual(s.round, s.now) && HeadReady(s) && s.round.phase.Moving?
    requires CanSchedule(s.scheduled, s.store.ended, Stopping(s), s.round.ready[0].(time := s.round.phase.at))
    ensures Placed(MoveOf(s))
  {
    hide Placed, Moved, ClaimsKept, Duplicate, AddJob;
    var job := s.round.ready[0].(time := s.round.phase.at);
    HeldIsWellFormed(s, InReady, 0);
    MovesMove(s);
    AlwaysClaims(s, MoveOf(s), Some(InReady), Some(InSlot(job.time)));
    MoveKeepsPlaces(s, MoveOf(s), Some(InReady), Some(InSlot(job.time)), job);
  }

  lemma StepMove(s: State)
    requires Inv(s) && RoundEnabled(s, Move)
    ensures Inv(RoundApply(s, Move))
  {
    hide Placed, Local, Duplicate, AddJob;
    var job := s.round.ready[0].(time := s.round.phase.at);
    var s' := MoveOf(s);
    MoveKeepsLocal(s);
    if CanSchedule(s.scheduled, s.store.ended, Stopping(s), job) {
      assert RoundPunctual(s.round, s.now) by { LocalRound(s); }
      MovedOnKeepsPlaces(s);
    } else {
      assert forall h :: Held(s', h) == Held(s, h);
      StillKeepsPlaces(s, s');
    }
  }

  lemma LocalRound(s: State)
    requires Local(s)
    ensures RoundPunctual(s.round, s.now)
  {
  }

  lemma MoveKeepsLocal(s: State)
    requires Local(s) && HeadReady(s) && s.round.phase.Moving?
    ensures Local(MoveOf(s))
  {
    hide StoreOk, MarkersOk, ScheduleOk, ProducersOk, WorkersPunctual, Duplicate, AddJob;
    var job := s.round.ready[0].(time := s.round.phase.at);
    if CanSchedule(s.scheduled, s.store.ended, Stopping(s), job) {
      AddKeepsSchedule(s.scheduled, job);
    }
  }

  lemma StepGive(s: State)
    requires Inv(s) && RoundEnabled(s, Give)
    ensures Inv(RoundApply(s, Give))
  {
    hide Placed, StoreOk, MarkersOk, ScheduleOk, ProducersOk, WorkersPunctual, FinishJob;
    var s' := RoundApply(s, Give);
    FinishKeepsMarkers(s.pending, s.store.issued, s.nextMarker, s.round.ready[0]);
    assert Moved(s, s', Some(InReady), None, NO_JOB);
    MoveKeepsPlaces(s, s', Some(InReady), None, NO_JOB);
  }

  // Stop

  lemma StepStopFlag(s: State)
    requires Inv(s) && StopEnabled(s, StopFlag)
    ensures Inv(StopApply(s, StopFlag))
  {
    hide Placed, StoreOk, MarkersOk, ScheduleOk, ProducersOk, WorkersPunctual, RoundPunctual;
    var s' := s.(stop := Joining);
    assert forall h :: Held(s', h) == Held(s, h);
    StillKeepsPlaces(s, s');
  }
}
