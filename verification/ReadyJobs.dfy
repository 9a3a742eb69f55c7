// What becomes of the jobs a scheduler tick found ready, while other threads act between its sections.
module ReadyJobs {
  import opened Types
  import opened CacheModel
  import opened StoreModel
  import opened ScheduleModel
  import opened Lifecycle
  import opened LifecycleInvariant
  import opened LifecycleRuns

  // scheduleJob, else finishJob.
  function MoveOrGiveOf(s: State): State
    requires HeadReady(s) && s.round.phase.Moving?
  {
    var s1 := MoveOf(s);
    if HeadReady(s1) && s1.round.phase.Giving? then GiveOf(s1) else s1
  }

  // processScheduledReadyJob without interruption.
  function ProcessReady(s: State): State
    requires HeadReady(s) && s.round.phase.Unlocked?
  {
    var s1 := EnterOf(s);
    if s1.round.phase.Giving? then GiveOf(s1)
    else if s1.round.phase.Moving? then MoveOrGiveOf(s1)
    else if |s1.queue| < s1.capacity then PushOf(s1)
    else MoveOrGiveOf(PushOf(s1))
  }

  // What became of the first ready job.
  datatype Outcome = Queued | Rescheduled(t: int) | GivenUp

  ghost predicate Ends(s: State, s': State, outcome: Outcome)
    requires HeadReady(s)
  {
    var job := s.round.ready[0];
    && s'.round == s.round.(ready := s.round.ready[1..], phase := Unlocked)
    && s'.queue == (if outcome.Queued? then s.queue + [job] else s.queue)
    && s'.scheduled == (if outcome.Rescheduled? then AddJob(s.scheduled, job.(time := outcome.t)) else s.scheduled)
    && s'.pending == (if outcome.GivenUp? then FinishJob(s.pending, job) else s.pending)
  }

  lemma MoveOrGive(s: State)
    requires HeadReady(s) && s.round.phase.Moving? && !Stopping(s) && !Ended(s, s.round.ready[0])
    ensures Ends(s.(round := s.round.(phase := Unlocked)), MoveOrGiveOf(s),
                 if Duplicate(s.scheduled, s.round.ready[0]) then GivenUp else Rescheduled(s.round.phase.at))
  {
    hide AddJob, FinishJob;
    var job, t := s.round.ready[0], s.round.phase.at;
    assert Duplicate(s.scheduled, job.(time := t)) <==> Duplicate(s.scheduled, job);
  }

  // An uninterrupted call leaves a live ready job in the queue, or scheduled strictly later, or dropped
  // because its upstream already has a scheduled job. ReadyJobFate below is the same for every interleaving.
  lemma UninterruptedFate(s: State)
    requires RoundPunctual(s.round, s.now) && HeadReady(s) && s.round.phase.Unlocked?
    requires !Stopping(s) && !Ended(s, s.round.ready[0])
    ensures var job, s' := s.round.ready[0], ProcessReady(s);
            || Ends(s, s', Queued)
            || (exists t :: t > s.round.now >= job.time && Ends(s, s', Rescheduled(t)))
            || (Duplicate(s.scheduled, job) && Ends(s, s', GivenUp))
  {
    hide MoveOrGiveOf, AddJob, FinishJob, Duplicate, Ends;
    var job := s.round.ready[0];
    var s1 := EnterOf(s);
    assert s.round.now >= job.time;
    if s1.round.phase.Moving? {
      LateMove(s, s1);
    } else if |s.queue| < s.capacity {
      PushEnds(s, s1);
    } else {
      LateMove(s, PushOf(s1));
    }
  }

  lemma LateMove(s: State, s1: State)
    requires HeadReady(s) && s.round.phase.Unlocked? && !Stopping(s) && !Ended(s, s.round.ready[0])
    requires s1.round.Draining? && s1 == s.(suspended := s1.suspended, round := s.round.(phase := s1.round.phase))
    requires s1.round.phase.Moving? && s1.round.phase.at > s.round.now
    ensures var s' := MoveOrGiveOf(s1);
            || (exists t :: t > s.round.now && Ends(s, s', Rescheduled(t)))
            || (Duplicate(s.scheduled, s.round.ready[0]) && Ends(s, s', GivenUp))
  {
    hide MoveOrGiveOf, AddJob, FinishJob, Duplicate;
    MoveOrGive(s1);
    assert s1.round.(phase := Unlocked) == s.round;
    if !Duplicate(s.scheduled, s.round.ready[0]) {
      assert Ends(s, MoveOrGiveOf(s1), Rescheduled(s1.round.phase.at));
    }
  }

  lemma PushEnds(s: State, s1: State)
    requires HeadReady(s) && s.round.phase.Unlocked? && |s.queue| < s.capacity
    requires s1 == s.(suspended := s1.suspended, round := s.round.(phase := Pushing))
    ensures Ends(s, PushOf(s1), Queued)
  {
  }

  // Every interleaving

  // A phase is entered for the first ready job only, once the cancelled jobs are gone.
  ghost predicate PhaseOk(round: Round) {
    round.Draining? && !round.phase.Unlocked? ==> round.dropped == [] && round.ready != []
  }

  lemma EnterEffect(s: State)
    requires HeadReady(s)
    ensures var s' := EnterOf(s);
            && s'.round.Draining? && s'.round == s.round.(phase := s'.round.phase)
            && (s'.round.phase.Giving? ==> Stopping(s) || Ended(s, s.round.ready[0]))
  {
    hide Suspension, RescheduleAt;
  }

  lemma PushEffect(s: State)
    requires HeadReady(s)
    ensures |s.queue| < s.capacity ==> Ends(s, PushOf(s), Queued)
    ensures |s.queue| >= s.capacity ==> PushOf(s).round == s.round.(phase := Moving(s.round.now + 10 * SECOND))
  {
  }

  lemma MoveEffect(s: State)
    requires HeadReady(s) && s.round.phase.Moving?
    ensures if CanSchedule(s.scheduled, s.store.ended, Stopping(s), s.round.ready[0])
            then Ends(s, MoveOf(s), Rescheduled(s.round.phase.at))
            else MoveOf(s).round == s.round.(phase := Giving)
  {
    hide AddJob;
    var job, t := s.round.ready[0], s.round.phase.at;
    assert Duplicate(s.scheduled, job.(time := t)) <==> Duplicate(s.scheduled, job);
  }

  lemma GiveEffect(s: State)
    requires HeadReady(s)
    ensures Ends(s, GiveOf(s), GivenUp)
  {
    hide FinishJob;
  }

  lemma TickEffect(s: State, order: seq<int>, at: int)
    ensures TickOf(s, order, at).round.Draining? && TickOf(s, order, at).round.phase.Unlocked?
  {
    hide Gather, KeptSlots;
  }

  lemma RoundKeepsPhase(s: State, a: RoundAction)
    requires RoundEnabled(s, a) && PhaseOk(s.round)
    ensures PhaseOk(RoundApply(s, a).round)
  {
    hide EnterOf, PushOf, MoveOf, GiveOf, TickOf, CanSchedule, FinishJob, Enumerates;
    match a
    case Tick(order, at) => TickEffect(s, order, at);
    case Enter => EnterEffect(s);
    case Push => PushEffect(s);
    case Move => MoveEffect(s);
    case Give => GiveEffect(s);
    case _ =>
  }

  // The round is the scheduler's own.
  lemma OthersLeaveRound(s: State, a: Action)
    requires Enabled(s, a) && !a.ByScheduler?
    ensures Apply(s, a).round == s.round
  {
    hide TableApply, ProducerApply, WorkerApply,
         TableEnabled, ProducerEnabled, WorkerEnabled, RoundEnabled, StopEnabled;
    match a
    case OnTables(table) => TablesLeaveRound(s, table);
    case ByProducer(p, producer) => ProducersLeaveRound(s, p, producer);
    case ByWorker(w, work) => WorkersLeaveRound(s, w, work);
    case _ =>
  }

  lemma TablesLeaveRound(s: State, a: TableAction)
    requires TableEnabled(s, a)
    ensures TableApply(s, a).round == s.round && TableApply(s, a).stop == s.stop
  {
    hide Update, StopPeer, Purge, CancelScheduled, CancelMarkers, CancelAll, ClearSessions;
  }

  lemma ProducersLeaveRound(s: State, p: ThreadId, a: ProducerAction)
    requires ProducerEnabled(s, p, a)
    ensures ProducerApply(s, p, a).round == s.round && ProducerApply(s, p, a).stop == s.stop
  {
    hide ReserveOf, SendOf, FinishJob;
  }

  lemma WorkersLeaveRound(s: State, w: ThreadId, a: WorkerAction)
    requires WorkerEnabled(s, w, a)
    ensures WorkerApply(s, w, a).round == s.round && WorkerApply(s, w, a).stop == s.stop
  {
    hide ScheduleEarlyOf, PublishOf, DeferRetryOf, InstallRetryOf, FinishJob, Examined;
  }

  // Once stopping, always stopping.
  lemma StoppingStays(s: State, a: Action)
    requires Enabled(s, a) && Stopping(s)
    ensures Stopping(Apply(s, a))
  {
    hide TableApply, ProducerApply, WorkerApply, RoundApply, StopApply,
         TableEnabled, ProducerEnabled, WorkerEnabled, RoundEnabled, StopEnabled;
    match a
    case OnTables(table) => TablesLeaveRound(s, table);
    case ByProducer(p, producer) => ProducersLeaveRound(s, p, producer);
    case ByWorker(w, work) => WorkersLeaveRound(s, w, work);
    case ByScheduler(scheduler) => RoundLeavesStop(s, scheduler);
    case ByStop(stop) => StopGoesOn(s, stop);
    case Clock(_) =>
  }

  lemma StopGoesOn(s: State, a: StopAction)
    requires StopEnabled(s, a)
    ensures Stopping(StopApply(s, a))
  {
  }

  lemma {:induction false} RunPhase(states: seq<State>, actions: seq<Action>, n: nat)
    requires IsRun(states, actions) && n < |states|
    ensures PhaseOk(states[n].round)
  {
    hide Enabled, Apply;
    if n > 0 {
      RunPhase(states, actions, n - 1);
      StepKeepsPhase(states[n - 1], actions[n - 1]);
    }
  }

  lemma StepKeepsPhase(s: State, a: Action)
    requires Enabled(s, a) && PhaseOk(s.round)
    ensures PhaseOk(Apply(s, a).round)
  {
    hide PhaseOk, RoundApply, TableApply, ProducerApply, WorkerApply,
         TableEnabled, ProducerEnabled, WorkerEnabled, RoundEnabled, StopEnabled;
    if a.ByScheduler? {
      RoundKeepsPhase(s, a.scheduler);
    } else {
      OthersLeaveRound(s, a);
    }
  }

  // Step k is the refused attempt to move the job at the head of this round: its upstream had a scheduled
  // job, and the round has not changed since.
  ghost predicate RefusedAt(states: seq<State>, actions: seq<Action>, k: nat, n: nat)
    requires |states| == |actions| + 1 && n < |states| && HeadReady(states[n])
  {
    && k < n && actions[k] == ByScheduler(Move)
    && states[k].round.Draining? && states[k].round.phase.Moving?
    && states[k].round.(phase := Giving) == states[n].round
    && Duplicate(states[k].scheduled, states[n].round.ready[0])
    && forall i :: k < i <= n ==> states[i].round == states[n].round
  }

  // The head of a live job is marked for giving up only by a refused Move.
  lemma OnlyRefusal(s: State, a: RoundAction)
    requires RoundEnabled(s, a) && PhaseOk(s.round) && !Stopping(s)
    requires HeadReady(RoundApply(s, a)) && RoundApply(s, a).round.phase.Giving?
    requires !Ended(s, RoundApply(s, a).round.ready[0])
    ensures a.Move? && s.round.Draining? && s.round.phase.Moving? && s.round.(phase := Giving) == RoundApply(s, a).round
    ensures Duplicate(s.scheduled, RoundApply(s, a).round.ready[0])
  {
    hide EnterOf, PushOf, MoveOf, GiveOf, TickOf, Duplicate, FinishJob, Enumerates;
    match a
    case Tick(order, at) => TickEffect(s, order, at);
    case Enter => EnterEffect(s);
    case Push => PushEffect(s);
    case Move => MoveEffect(s);
    case Give => GiveEffect(s);
    case _ =>
  }

  lemma {:induction false} RefusedBefore(states: seq<State>, actions: seq<Action>, n: nat)
    requires IsRun(states, actions) && n < |states|
    requires HeadReady(states[n]) && states[n].round.phase.Giving?
    requires !Stopping(states[n]) && !Ended(states[n], states[n].round.ready[0])
    ensures exists k :: RefusedAt(states, actions, k, n)
  {
    hide Apply, Enabled, Duplicate, RoundApply, RoundEnabled, PhaseOk;
    if n > 0 {
      var s, a := states[n - 1], actions[n - 1];
      RunPhase(states, actions, n - 1);
      StepGrows(s, a);
      if a.ByScheduler? {
        SchedulerStep(s, a);
        OnlyRefusal(s, a.scheduler);
        assert RefusedAt(states, actions, n - 1, n);
      } else {
        OthersLeaveRound(s, a);
        StillRunning(s, a);
        RefusedBefore(states, actions, n - 1);
        var k :| RefusedAt(states, actions, k, n - 1);
        assert RefusedAt(states, actions, k, n);
      }
    }
  }

  lemma StillRunning(s: State, a: Action)
    requires Enabled(s, a) && !Stopping(Apply(s, a))
    ensures !Stopping(s)
  {
    hide Apply, Enabled;
    if Stopping(s) {
      StoppingStays(s, a);
    }
  }

  lemma SchedulerStep(s: State, a: Action)
    requires Enabled(s, a) && a.ByScheduler?
    ensures RoundEnabled(s, a.scheduler) && Apply(s, a) == RoundApply(s, a.scheduler)
    ensures Apply(s, a).store == s.store && Stopping(Apply(s, a)) == Stopping(s)
  {
    hide RoundApply, RoundEnabled;
    RoundLeavesStore(s, a.scheduler);
    RoundLeavesStop(s, a.scheduler);
  }

  lemma RoundLeavesStop(s: State, a: RoundAction)
    requires RoundEnabled(s, a)
    ensures RoundApply(s, a).stop == s.stop
  {
    hide EnterOf, PushOf, MoveOf, GiveOf, TickOf, FinishJob, Enumerates;
  }

  // The three ways in which the head of the ready jobs leaves the round in one step.
  lemma HeadLeaves(s: State, a: RoundAction)
    requires RoundEnabled(s, a) && HeadReady(s) && RoundPunctual(s.round, s.now)
    requires RoundApply(s, a).round.Draining? ==> RoundApply(s, a).round.ready != s.round.ready
    ensures var s', job := RoundApply(s, a), s.round.ready[0];
            || (a.Push? && Ends(s, s', Queued))
            || (a.Move? && s.round.phase.Moving? && s.round.phase.at > s.round.now >= job.time &&
                Ends(s, s', Rescheduled(s.round.phase.at)))
            || (a.Give? && s.round.phase.Giving? && Ends(s, s', GivenUp))
  {
    hide EnterOf, PushOf, MoveOf, GiveOf, TickOf, CanSchedule, FinishJob, Enumerates, Ends;
    assert s.round.ready[0].time <= s.round.now;
    match a
    case Enter => EnterEffect(s);
    case Push => PushEffect(s);
    case Move => MoveEffect(s);
    case Give => GiveEffect(s);
    case _ =>
  }

  // In every run, whatever other threads do in between: a ready job leaves the round into the queue, or to a
  // time strictly later, or is given up because its session ended, or the manager is stopping, or because its
  // upstream already had a scheduled job when the scheduler tried to move this one.
  lemma ReadyJobFate(states: seq<State>, actions: seq<Action>, n: nat)
    requires IsRun(states, actions) && n < |actions| && HeadReady(states[n])
    requires states[n + 1].round.Draining? ==> states[n + 1].round.ready != states[n].round.ready
    ensures var s, s', job := states[n], states[n + 1], states[n].round.ready[0];
            || Ends(s, s', Queued)
            || (exists t :: t > s.round.now >= job.time && Ends(s, s', Rescheduled(t)))
            || (Ends(s, s', GivenUp) &&
                (Stopping(s) || Ended(s, job) || exists k :: RefusedAt(states, actions, k, n)))
  {
    hide Apply, Enabled, Duplicate, RoundApply, RoundEnabled, Ends, RefusedAt;
    var s, a := states[n], actions[n];
    assert RoundPunctual(s.round, s.now) by { RunIsPunctual(states, actions, n); }
    if !a.ByScheduler? {
      OthersLeaveRound(s, a);
    } else {
      SchedulerStep(s, a);
      HeadLeaves(s, a.scheduler);
      if a.scheduler.Give? && !Stopping(s) && !Ended(s, s.round.ready[0]) {
        RefusedBefore(states, actions, n);
      }
    }
  }

  lemma RunIsPunctual(states: seq<State>, actions: seq<Action>, n: nat)
    requires IsRun(states, actions) && n < |states|
    ensures RoundPunctual(states[n].round, states[n].now)
  {
    hide Placed, Named, Enabled, Apply;
    RunInv(states, actions, n);
  }

  // A job is queued only after it was admitted

  // Step k admitted the head of this round: its session was live, the manager running, and its forwarder not
  // suspended at the tick's time; the round has not changed since.
  ghost predicate AdmittedAt(states: seq<State>, actions: seq<Action>, k: nat, n: nat)
    requires |states| == |actions| + 1 && n < |states| && HeadReady(states[n])
  {
    var job, now := states[n].round.ready[0], states[n].round.now;
    && k < n && actions[k] == ByScheduler(Enter)
    && states[k].stop.Running? && job.marker.session !in states[k].store.ended
    && (job.name in states[k].suspended ==> states[k].suspended[job.name] < now)
    && forall i :: k < i <= n ==> states[i].round == states[n].round
  }

  lemma OnlyAdmission(s: State, a: RoundAction)
    requires RoundEnabled(s, a) && PhaseOk(s.round)
    requires HeadReady(RoundApply(s, a)) && RoundApply(s, a).round.phase.Pushing?
    ensures a.Enter?
    ensures var job, now := RoundApply(s, a).round.ready[0], RoundApply(s, a).round.now;
            && s.stop.Running? && job.marker.session !in s.store.ended
            && (job.name in s.suspended ==> s.suspended[job.name] < now)
  {
    hide PushOf, MoveOf, GiveOf, TickOf, CanSchedule, FinishJob, Enumerates;
    match a
    case Tick(order, at) => TickEffect(s, order, at);
    case Enter => EnterEffect(s);
    case Push => PushEffect(s);
    case Move => MoveEffect(s);
    case Give => GiveEffect(s);
    case _ =>
  }

  lemma {:induction false} AdmittedBefore(states: seq<State>, actions: seq<Action>, n: nat)
    requires IsRun(states, actions) && n < |states| && HeadReady(states[n]) && states[n].round.phase.Pushing?
    ensures exists k :: AdmittedAt(states, actions, k, n)
  {
    hide Apply, Enabled, RoundApply, RoundEnabled, PhaseOk;
    if n > 0 {
      var s, a := states[n - 1], actions[n - 1];
      RunPhase(states, actions, n - 1);
      if a.ByScheduler? {
        SchedulerStep(s, a);
        OnlyAdmission(s, a.scheduler);
        assert AdmittedAt(states, actions, n - 1, n);
      } else {
        OthersLeaveRound(s, a);
        AdmittedBefore(states, actions, n - 1);
        var k :| AdmittedAt(states, actions, k, n - 1);
        assert AdmittedAt(states, actions, k, n);
      }
    }
  }
}
