// While no job without a forwarder name is deferred, the schedule and everything on the way to it or from it
// hold only jobs of named forwarders.
module LifecycleNamed {
  import opened Types
  import CacheModel
  import opened StoreModel
  import opened ScheduleModel
  import opened TickModel
  import opened Lifecycle
  import opened LifecycleInvariant

  lemma AddKeepsNamed(sched: Schedule, job: Job)
    requires ScheduleNamed(sched) && job.name != ""
    ensures ScheduleNamed(AddJob(sched, job))
  {
    var sched' := AddJob(sched, job);
    forall t | t in sched' ensures AllNamed(sched'[t]) {
      if t == job.time {
        assert t in sched ==> AllNamed(sched[t]);
      } else {
        assert AllNamed(sched[t]);
      }
    }
  }

  lemma PickKeepsNamed(js: seq<Job>, fate: Fate, t: int, now: int, ended: set<SessionId>)
    requires AllNamed(js)
    ensures AllNamed(Pick(js, fate, t, now, ended))
  {
    PickIsFilter(js, fate, t, now, ended);
  }

  lemma GatherKeepsNamed(sched: Schedule, order: seq<int>, fate: Fate, now: int, ended: set<SessionId>)
    requires ScheduleNamed(sched) && Enumerates(order, sched)
    ensures AllNamed(Gather(sched, order, fate, now, ended))
  {
    var jobs, ix := Gather(sched, order, fate, now, ended), GatherIx(sched, order, fate, now, ended);
    GatherLocates(sched, order, fate, now, ended);
    forall i | 0 <= i < |jobs| ensures jobs[i].name != "" {
      assert AllNamed(sched[ix[i].0]);
    }
  }

  lemma TickKeepsNamed(s: State, order: seq<int>, at: int)
    requires AllShelvesNamed(s) && Enumerates(order, s.scheduled)
    ensures AllShelvesNamed(TickOf(s, order, at))
  {
    hide QueueNamed, WorkersNamed, ProducersNamed, AllNamed, Gather;
    GatherKeepsNamed(s.scheduled, order, Cancelled, at, s.store.ended);
    GatherKeepsNamed(s.scheduled, order, Ready, at, s.store.ended);
    forall t | t in s.scheduled ensures AllNamed(Pick(s.scheduled[t], Kept, t, at, s.store.ended)) {
      PickKeepsNamed(s.scheduled[t], Kept, t, at, s.store.ended);
    }
  }

  lemma CancelKeepsNamed(sched: Schedule, key: PeerKey, session: SessionId)
    requires ScheduleNamed(sched)
    ensures ScheduleNamed(CancelScheduled(sched, key, session))
  {
    hide Others, AllNamed;
    forall t | t in sched ensures AllNamed(Others(sched[t], key, session)) {
      OthersKeepNamed(sched[t], key, session);
    }
  }

  lemma OthersKeepNamed(js: seq<Job>, key: PeerKey, session: SessionId)
    requires AllNamed(js)
    ensures AllNamed(Others(js, key, session))
  {
    OthersIsFilter(js, key, session);
  }

  lemma TableKeepsNamed(s: State, a: TableAction)
    requires AllShelvesNamed(s) && TableEnabled(s, a)
    ensures AllShelvesNamed(TableApply(s, a))
  {
    hide QueueNamed, ScheduleNamed, RoundNamed, WorkersNamed, ProducersNamed, Update, StopPeer, Purge, CancelScheduled, CancelMarkers;
    if a.CancelJobs? {
      CancelKeepsNamed(s.scheduled, a.key, a.session);
    }
  }

  lemma ProducerKeepsNamed(s: State, p: ThreadId, a: ProducerAction)
    requires AllShelvesNamed(s) && ProducerEnabled(s, p, a)
    ensures AllShelvesNamed(ProducerApply(s, p, a))
  {
    hide ScheduleNamed, RoundNamed, WorkersNamed, FinishJob;
  }

  lemma SetWorkKeepsNamed(workers: map<ThreadId, Work>, w: ThreadId, work: Work)
    requires WorkersNamed(workers) && WorkNamed(work)
    ensures WorkersNamed(workers[w := work])
  {
  }

  lemma RemoveFirstKeepsNamed(queue: seq<Job>)
    requires QueueNamed(queue) && queue != []
    ensures QueueNamed(queue[1..]) && Immediate(queue[0])
  {
  }

  lemma TakeKeepsNamed(s: State, w: ThreadId)
    requires AllShelvesNamed(s) && WorkerEnabled(s, w, Take)
    ensures AllShelvesNamed(WorkerApply(s, w, Take))
  {
    hide ScheduleNamed, RoundNamed, ProducersNamed, WorkersNamed, QueueNamed;
    RemoveFirstKeepsNamed(s.queue);
    SetWorkKeepsNamed(s.workers, w, Taken(s.queue[0]));
  }

  // A retry has its job's forwarder, and a job that waits for its time has one.
  lemma ScheduleKeepsNamed(s: State, w: ThreadId, job: Job, work: Work)
    requires AllShelvesNamed(s) && job.name != "" && WorkNamed(work)
    ensures ScheduleNamed(AddJob(s.scheduled, job)) && WorkersNamed(s.workers[w := work])
  {
    hide AddJob, ScheduleNamed, RoundNamed, ProducersNamed, WorkersNamed, QueueNamed;
    AddKeepsNamed(s.scheduled, job);
    SetWorkKeepsNamed(s.workers, w, work);
  }

  lemma InstallRetryKeepsNamed(s: State, w: ThreadId)
    requires AllShelvesNamed(s) && w in s.workers && s.workers[w].Deferred?
    ensures AllShelvesNamed(InstallRetryOf(s, w))
  {
    hide ScheduleNamed, RoundNamed, ProducersNamed, WorkersNamed, QueueNamed, AddJob, CanSchedule;
    WorkIsNamed(s.workers, w);
    ScheduleKeepsNamed(s, w, RetryJob(s, s.workers[w]), Finishing(s.workers[w].job));
  }

  lemma ScheduleEarlyKeepsNamed(s: State, w: ThreadId)
    requires AllShelvesNamed(s) && w in s.workers && s.workers[w].Early?
    ensures AllShelvesNamed(ScheduleEarlyOf(s, w))
  {
    hide ScheduleNamed, RoundNamed, ProducersNamed, WorkersNamed, QueueNamed, AddJob, CanSchedule;
    WorkIsNamed(s.workers, w);
    ScheduleKeepsNamed(s, w, s.workers[w].job, Idle);
    SetWorkKeepsNamed(s.workers, w, Finishing(s.workers[w].job));
  }

  lemma WorkIsNamed(workers: map<ThreadId, Work>, w: ThreadId)
    requires WorkersNamed(workers) && w in workers
    ensures WorkNamed(workers[w])
  {
  }

  lemma DeferKeepsNamed(s: State, w: ThreadId, minutes: int, at: int)
    requires AllShelvesNamed(s) && WorkerEnabled(s, w, DeferRetry(minutes, at))
    requires s.workers[w].job.name != "" || !MayWrite(s, s.workers[w].job)
    ensures AllShelvesNamed(DeferRetryOf(s, w, minutes, at))
  {
    hide ScheduleNamed, RoundNamed, ProducersNamed, WorkersNamed, QueueNamed, CacheModel.DeferAnnounce;
    var s' := DeferRetryOf(s, w, minutes, at);
    SetWorkKeepsNamed(s.workers, w, s'.workers[w]);
    assert s'.workers == s.workers[w := s'.workers[w]];
  }

  lemma RestKeepsNamed(s: State, w: ThreadId, a: WorkerAction)
    requires AllShelvesNamed(s) && WorkerEnabled(s, w, a)
    requires a.Spawn? || a.Exit? || a.Examine? || a.Publish? || a.Abandon? || a.Finish?
    ensures AllShelvesNamed(WorkerApply(s, w, a))
  {
    hide ScheduleNamed, RoundNamed, ProducersNamed, QueueNamed, FinishJob, CacheModel.UpdatePeers;
    var s' := WorkerApply(s, w, a);
    assert s'.queue == s.queue && s'.scheduled == s.scheduled && s'.round == s.round && s'.producers == s.producers;
  }

  lemma WorkerKeepsNamed(s: State, w: ThreadId, a: WorkerAction)
    requires AllShelvesNamed(s) && WorkerEnabled(s, w, a)
    requires a.DeferRetry? ==> s.workers[w].job.name != "" || !MayWrite(s, s.workers[w].job)
    ensures AllShelvesNamed(WorkerApply(s, w, a))
  {
    hide AllShelvesNamed, DeferRetryOf, InstallRetryOf, ScheduleEarlyOf;
    match a
    case Take => TakeKeepsNamed(s, w);
    case ScheduleEarly => ScheduleEarlyKeepsNamed(s, w);
    case DeferRetry(minutes, at) => DeferKeepsNamed(s, w, minutes, at);
    case InstallRetry => InstallRetryKeepsNamed(s, w);
    case _ => RestKeepsNamed(s, w, a);
  }

  lemma PhaseKeepsNamed(round: Round, phase: Phase)
    requires round.Draining? && RoundNamed(round)
    ensures RoundNamed(round.(phase := phase))
  {
  }

  lemma HeadLeaves(round: Round)
    requires round.Draining? && round.ready != [] && RoundNamed(round)
    ensures round.ready[0].name != "" && RoundNamed(round.(ready := round.ready[1..], phase := Unlocked))
  {
  }

  lemma AppendKeepsNamed(queue: seq<Job>, job: Job)
    requires QueueNamed(queue) && Immediate(job)
    ensures QueueNamed(queue + [job])
  {
  }

  lemma EnterKeepsNamed(s: State)
    requires AllShelvesNamed(s) && HeadReady(s)
    ensures AllShelvesNamed(EnterOf(s))
  {
    hide QueueNamed, ScheduleNamed, RoundNamed, WorkersNamed, ProducersNamed, Suspension;
    PhaseKeepsNamed(s.round, EnterOf(s).round.phase);
  }

  lemma PushKeepsNamed(s: State)
    requires AllShelvesNamed(s) && HeadReady(s)
    ensures AllShelvesNamed(PushOf(s))
  {
    hide QueueNamed, ScheduleNamed, RoundNamed, WorkersNamed, ProducersNamed;
    HeadLeaves(s.round);
    AppendKeepsNamed(s.queue, s.round.ready[0]);
    PhaseKeepsNamed(s.round, PushOf(s).round.phase);
  }

  lemma MoveKeepsNamed(s: State)
    requires AllShelvesNamed(s) && HeadReady(s) && s.round.phase.Moving?
    ensures AllShelvesNamed(MoveOf(s))
  {
    hide QueueNamed, ScheduleNamed, RoundNamed, WorkersNamed, ProducersNamed, CanSchedule, AddJob;
    HeadLeaves(s.round);
    AddKeepsNamed(s.scheduled, s.round.ready[0].(time := s.round.phase.at));
    PhaseKeepsNamed(s.round, Giving);
  }

  lemma GiveKeepsNamed(s: State)
    requires AllShelvesNamed(s) && HeadReady(s)
    ensures AllShelvesNamed(GiveOf(s))
  {
    hide QueueNamed, ScheduleNamed, RoundNamed, WorkersNamed, ProducersNamed, FinishJob;
    HeadLeaves(s.round);
  }

  lemma RoundKeepsNamed(s: State, a: RoundAction)
    requires AllShelvesNamed(s) && RoundEnabled(s, a)
    ensures AllShelvesNamed(RoundApply(s, a))
  {
    hide QueueNamed, ScheduleNamed, WorkersNamed, ProducersNamed, FinishJob, TickOf, EnterOf, PushOf, MoveOf, GiveOf, Enumerates;
    match a
    case Tick(order, at) => TickKeepsNamed(s, order, at);
    case Enter => EnterKeepsNamed(s);
    case Push => PushKeepsNamed(s);
    case Move => MoveKeepsNamed(s);
    case Give => GiveKeepsNamed(s);
    case _ =>
  }

  lemma StopKeepsNamed(s: State, a: StopAction)
    requires AllShelvesNamed(s) && StopEnabled(s, a)
    ensures AllShelvesNamed(StopApply(s, a))
  {
    hide RoundNamed, WorkersNamed, ProducersNamed;
  }

  // An action that defers a job of the unnamed forwarder.
  predicate DefersUnnamed(s: State, a: Action) {
    && a.ByWorker? && a.work.DeferRetry? && a.w in s.workers && s.workers[a.w].Executing?
    && s.workers[a.w].job.name == ""
  }

  lemma StepRecords(s: State, a: Action)
    requires Enabled(s, a)
    ensures s.unnamedDeferred ==> Apply(s, a).unnamedDeferred
    ensures Apply(s, a).unnamedDeferred ==> s.unnamedDeferred || DefersUnnamed(s, a)
  {
    hide TableApply, ProducerApply, WorkerApply, RoundApply,
         TableEnabled, ProducerEnabled, RoundEnabled, StopEnabled;
    match a
    case OnTables(table) => TableRecords(s, table);
    case ByProducer(p, producer) => ProducerRecords(s, p, producer);
    case ByWorker(w, work) => WorkerRecords(s, w, work);
    case ByScheduler(scheduler) => RoundRecords(s, scheduler);
    case _ =>
  }

  lemma TableRecords(s: State, a: TableAction)
    requires TableEnabled(s, a)
    ensures TableApply(s, a).unnamedDeferred == s.unnamedDeferred
  {
    hide Update, StopPeer, Purge, CancelScheduled, CancelMarkers, CancelAll, ClearSessions;
  }

  lemma ProducerRecords(s: State, p: ThreadId, a: ProducerAction)
    requires ProducerEnabled(s, p, a)
    ensures ProducerApply(s, p, a).unnamedDeferred == s.unnamedDeferred
  {
    hide ReserveOf, SendOf, FinishJob;
  }

  lemma WorkerRecords(s: State, w: ThreadId, a: WorkerAction)
    requires WorkerEnabled(s, w, a)
    ensures WorkerApply(s, w, a).unnamedDeferred ==
            (s.unnamedDeferred || (a.DeferRetry? && s.workers[w].job.name == "" && MayWrite(s, s.workers[w].job)))
  {
    hide ScheduleEarlyOf, InstallRetryOf, FinishJob, Examined, CacheModel.UpdatePeers, CacheModel.DeferAnnounce;
  }

  lemma RoundRecords(s: State, a: RoundAction)
    requires RoundEnabled(s, a)
    ensures RoundApply(s, a).unnamedDeferred == s.unnamedDeferred
  {
    hide EnterOf, PushOf, MoveOf, GiveOf, TickOf, FinishJob, Enumerates;
  }

  // Every action keeps it.
  lemma StepNamed(s: State, a: Action)
    requires Named(s) && Enabled(s, a)
    ensures Named(Apply(s, a))
  {
    hide AllShelvesNamed, Apply, TableApply, ProducerApply, WorkerApply, RoundApply, StopApply;
    StepRecords(s, a);
    if !Apply(s, a).unnamedDeferred {
      ShelvesStayNamed(s, a);
    }
  }

  lemma ShelvesStayNamed(s: State, a: Action)
    requires AllShelvesNamed(s) && Enabled(s, a) && !Apply(s, a).unnamedDeferred
    ensures AllShelvesNamed(Apply(s, a))
  {
    hide QueueNamed, ScheduleNamed, RoundNamed, WorkersNamed, ProducersNamed,
         TableApply, ProducerApply, WorkerApply, RoundApply, StopApply;
    match a
    case OnTables(table) => TableKeepsNamed(s, table);
    case ByProducer(p, producer) => ProducerKeepsNamed(s, p, producer);
    case ByWorker(w, work) => WorkerStaysNamed(s, w, work);
    case ByScheduler(scheduler) => RoundKeepsNamed(s, scheduler);
    case ByStop(stop) => StopKeepsNamed(s, stop);
    case _ =>
  }

  lemma WorkerStaysNamed(s: State, w: ThreadId, a: WorkerAction)
    requires AllShelvesNamed(s) && WorkerEnabled(s, w, a) && !WorkerApply(s, w, a).unnamedDeferred
    ensures AllShelvesNamed(WorkerApply(s, w, a))
  {
    hide AllShelvesNamed, WorkerApply;
    WorkerRecords(s, w, a);
    WorkerKeepsNamed(s, w, a);
  }
}
