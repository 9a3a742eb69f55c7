// queueEligibleAnnounces while other handlers, workers and stop events act between any two of its sections.
module SelectionRuns {
  import opened Types
  import opened CacheModel
  import opened StoreModel
  import opened ScheduleModel
  import opened Lifecycle
  import opened LifecycleRuns
  import opened Selection
  import opened AnnounceQueueing

  // Between these steps the handler starts neither a call nor the turn of another candidate.
  ghost predicate NoOtherTurn(actions: seq<Action>, p: ThreadId, from: nat, to: nat)
    requires to <= |actions|
  {
    forall i :: from <= i < to && actions[i].ByProducer? && actions[i].p == p ==>
      !actions[i].producer.Reserve? && !actions[i].producer.Begin?
  }

  // In one call handler p offers the candidates in this order: candidate k has its turn at step at[k].
  ghost predicate Offers(states: seq<State>, actions: seq<Action>, p: ThreadId, key: PeerKey, session: SessionId,
                         cs: seq<Candidate>, at: seq<nat>)
  {
    && IsRun(states, actions) && |at| <= |cs|
    && (forall k :: 0 <= k < |at| ==>
          && at[k] < |actions| && actions[at[k]] == ByProducer(p, Reserve(cs[k].name))
          && p in states[at[k]].producers && states[at[k]].producers[p] == Offering(key, session))
    && (forall k :: 0 <= k < |at| - 1 ==> at[k] < at[k + 1] && NoOtherTurn(actions, p, at[k] + 1, at[k + 1]))
  }

  // At its turn the candidate's key was pending, or the peer's session had ended.
  predicate PassedOver(s: State, key: PeerKey, session: SessionId, name: string) {
    KeyFor(key, name) in s.pending || session in s.store.ended
  }

  // Step t puts this job at the end of the queue.
  ghost predicate SentAt(states: seq<State>, actions: seq<Action>, p: ThreadId, job: Job, t: nat) {
    && t < |actions| && |states| == |actions| + 1
    && actions[t] == ByProducer(p, Send)
    && states[t + 1].queue == states[t].queue + [job]
  }

  // What a handler is doing.
  function Doing(s: State, p: ThreadId): Option<Producer> {
    if p in s.producers then Some(s.producers[p]) else None
  }

  lemma OthersLeaveProducer(s: State, a: Action, p: ThreadId)
    requires Enabled(s, a) && !(a.ByProducer? && a.p == p)
    ensures Doing(Apply(s, a), p) == Doing(s, p)
  {
    hide TableApply, ProducerApply, WorkerApply, RoundApply,
         TableEnabled, ProducerEnabled, WorkerEnabled, RoundEnabled, StopEnabled;
    match a
    case OnTables(table) => TablesLeaveProducers(s, table);
    case ByProducer(q, producer) => ProducersLeaveOthers(s, q, producer, p);
    case ByWorker(w, work) => WorkersLeaveProducers(s, w, work);
    case ByScheduler(scheduler) => RoundLeavesProducers(s, scheduler);
    case _ =>
  }

  lemma TablesLeaveProducers(s: State, a: TableAction)
    requires TableEnabled(s, a)
    ensures TableApply(s, a).producers == s.producers
  {
    hide Update, StopPeer, Purge, CancelScheduled, CancelMarkers, CancelAll, ClearSessions;
  }

  lemma ProducersLeaveOthers(s: State, q: ThreadId, a: ProducerAction, p: ThreadId)
    requires ProducerEnabled(s, q, a) && p != q
    ensures Doing(ProducerApply(s, q, a), p) == Doing(s, p)
  {
    hide FinishJob;
  }

  lemma WorkersLeaveProducers(s: State, w: ThreadId, a: WorkerAction)
    requires WorkerEnabled(s, w, a)
    ensures WorkerApply(s, w, a).producers == s.producers
  {
    hide ScheduleEarlyOf, PublishOf, DeferRetryOf, InstallRetryOf, FinishJob, Examined;
  }

  lemma RoundLeavesProducers(s: State, a: RoundAction)
    requires RoundEnabled(s, a)
    ensures RoundApply(s, a).producers == s.producers
  {
    hide EnterOf, PushOf, MoveOf, GiveOf, TickOf, FinishJob, Enumerates;
  }

  // A handler that met a full queue, or has returned, offers nothing more in this call.
  lemma {:induction false} CallIsOver(states: seq<State>, actions: seq<Action>, p: ThreadId, from: nat, to: nat)
    requires IsRun(states, actions) && from <= to < |states| && NoOtherTurn(actions, p, from, to)
    requires Doing(states[from], p).None? || Doing(states[from], p).value.Refused?
    ensures Doing(states[to], p).None? || Doing(states[to], p).value.Refused?
    decreases |states| - from
  {
    hide Enabled, Apply;
    if from < to {
      var s, a := states[from], actions[from];
      assert Enabled(s, a) && states[from + 1] == Apply(s, a);
      if a.ByProducer? && a.p == p {
        OnlyTakesBack(s, p, a.producer);
      } else {
        OthersLeaveProducer(s, a, p);
      }
      CallIsOver(states, actions, p, from + 1, to);
    }
  }

  lemma OnlyTakesBack(s: State, p: ThreadId, a: ProducerAction)
    requires Enabled(s, ByProducer(p, a)) && !a.Reserve? && !a.Begin?
    requires Doing(s, p).None? || Doing(s, p).value.Refused?
    ensures Doing(Apply(s, ByProducer(p, a)), p).None?
  {
    hide FinishJob;
  }

  // A handler that reserved a marker and goes on to the next candidate has queued the job in between.
  lemma {:induction false} SentBeforeNext(states: seq<State>, actions: seq<Action>, p: ThreadId, job: Job, from: nat, to: nat)
    requires IsRun(states, actions) && from <= to < |states| && NoOtherTurn(actions, p, from, to)
    requires Doing(states[from], p).Some? && Doing(states[from], p).value.Sending? && Doing(states[from], p).value.job == job
    requires Doing(states[to], p).Some? && Doing(states[to], p).value.Offering?
    ensures exists t :: (from <= t < to && SentAt(states, actions, p, job, t))
    decreases |states| - from
  {
    hide Enabled, Apply;
    var s, a := states[from], actions[from];
    assert Enabled(s, a) && states[from + 1] == Apply(s, a);
    if a.ByProducer? && a.p == p {
      OnlySends(s, p, a.producer);
      if |s.queue| < s.capacity {
        assert SentAt(states, actions, p, job, from);
      } else {
        CallIsOver(states, actions, p, from + 1, to);
      }
    } else {
      OthersLeaveProducer(s, a, p);
      SentBeforeNext(states, actions, p, job, from + 1, to);
    }
  }

  lemma OnlySends(s: State, p: ThreadId, a: ProducerAction)
    requires Enabled(s, ByProducer(p, a)) && !a.Reserve? && !a.Begin?
    requires Doing(s, p).Some? && Doing(s, p).value.Sending?
    ensures a.Send?
    ensures var s' := Apply(s, ByProducer(p, a));
            if |s.queue| < s.capacity then s'.queue == s.queue + [Doing(s, p).value.job]
            else Doing(s', p).Some? && Doing(s', p).value.Refused?
  {
  }

  // The turn of a candidate that is not the last: it was passed over, or its job was queued before the next turn.
  lemma TurnOutcome(states: seq<State>, actions: seq<Action>, p: ThreadId, key: PeerKey, session: SessionId,
                    cs: seq<Candidate>, at: seq<nat>, k: nat)
    requires Offers(states, actions, p, key, session, cs, at) && k + 1 < |at|
    ensures var s := states[at[k]];
            || PassedOver(s, key, session, cs[k].name)
            || exists t :: (at[k] < t < at[k + 1] && SentAt(states, actions, p, JobFor(key, session, cs[k].name, s.nextMarker), t))
  {
    hide Enabled, Apply;
    var s, a := states[at[k]], actions[at[k]];
    assert Enabled(s, a) && states[at[k] + 1] == Apply(s, a);
    if !PassedOver(s, key, session, cs[k].name) {
      Reserves(s, p, cs[k].name);
      SentBeforeNext(states, actions, p, JobFor(key, session, cs[k].name, s.nextMarker), at[k] + 1, at[k + 1]);
    }
  }

  lemma Reserves(s: State, p: ThreadId, name: string)
    requires Enabled(s, ByProducer(p, Reserve(name)))
    requires !PassedOver(s, s.producers[p].key, s.producers[p].session, name)
    ensures var s' := Apply(s, ByProducer(p, Reserve(name)));
            Doing(s', p) == Some(Sending(s.producers[p].key, s.producers[p].session,
                                         JobFor(s.producers[p].key, s.producers[p].session, name, s.nextMarker)))
  {
  }

  // Whatever the tables look like at each turn: when a candidate has its turn, everyone preferred to it has had
  // one, and was queued then unless it was found pending or the session had ended.
  lemma InterleavedOptimal(states: seq<State>, actions: seq<Action>, p: ThreadId, key: PeerKey, session: SessionId,
                           cs: seq<Candidate>, at: seq<nat>, i: nat, j: nat)
    requires Offers(states, actions, p, key, session, cs, at) && Ranked(cs)
    requires i < |cs| && j < |at| && Preferred(cs[i], cs[j])
    ensures i < j
    ensures var s := states[at[i]];
            || PassedOver(s, key, session, cs[i].name)
            || exists t :: (at[i] < t < at[i + 1] && SentAt(states, actions, p, JobFor(key, session, cs[i].name, s.nextMarker), t))
  {
    hide Offers, PassedOver, SentAt;
    assert i != j;
    TurnsFit(states, actions, p, key, session, cs, at);
    TurnOutcome(states, actions, p, key, session, cs, at, i);
  }

  lemma TurnsFit(states: seq<State>, actions: seq<Action>, p: ThreadId, key: PeerKey, session: SessionId,
                 cs: seq<Candidate>, at: seq<nat>)
    requires Offers(states, actions, p, key, session, cs, at)
    ensures |at| <= |cs|
  {
  }
}
