// The actions that move or drop many jobs at once keep the invariant: a tick, a cancellation, Stop.
module LifecycleBatches {
  import opened Types
  import opened StoreModel
  import opened ScheduleModel
  import opened TickModel
  import opened Lifecycle
  import opened LifecycleInvariant
  import opened LifecycleMoves
  import opened LifecycleSteps

  type Place = (Holder, nat)

  // Every job of the later state was, unchanged, at its own place in the earlier one.
  ghost predicate Traced(s: State, s': State, origin: (Holder, nat) -> Place) {
    && (forall h, i :: 0 <= i < |Held(s', h)| ==>
          && origin(h, i).1 < |Held(s, origin(h, i).0)|
          && Held(s', h)[i] == Held(s, origin(h, i).0)[origin(h, i).1]
          && (Claims(s', h) ==> Claims(s, origin(h, i).0)))
    && (forall h, i, g, j :: (0 <= i < |Held(s', h)| && 0 <= j < |Held(s', g)| && origin(h, i) == origin(g, j)) ==> h == g && i == j)
  }

  lemma TracedOnePlace(s: State, s': State, origin: (Holder, nat) -> Place)
    requires Traced(s, s', origin) && OnePlace(s)
    ensures OnePlace(s')
  {
    forall h, i, g, j |
      0 <= i < |Held(s', h)| && 0 <= j < |Held(s', g)| && Held(s', h)[i].marker.id == Held(s', g)[j].marker.id
      ensures h == g && i == j
    {
      assert origin(h, i) == origin(g, j);
    }
  }

  lemma TracedWellFormed(s: State, s': State, origin: (Holder, nat) -> Place)
    requires Traced(s, s', origin) && JobsWellFormed(s) && s'.store == s.store && s'.nextMarker == s.nextMarker
    ensures JobsWellFormed(s')
  {
    forall h, i | 0 <= i < |Held(s', h)| ensures WellFormed(s'.store.issued, s'.nextMarker, Held(s', h)[i]) {
      var o := origin(h, i);
      assert WellFormed(s.store.issued, s.nextMarker, Held(s, o.0)[o.1]);
    }
  }

  // Markers of live sessions untouched.
  lemma TracedOwnership(s: State, s': State, origin: (Holder, nat) -> Place)
    requires Traced(s, s', origin) && Ownership(s) && s'.store == s.store
    requires forall key :: key in s.pending && s.pending[key].session !in s.store.ended ==>
      key in s'.pending && s'.pending[key] == s.pending[key]
    ensures Ownership(s')
  {
    forall h, i | 0 <= i < |Held(s', h)| && Claims(s', h) && !Ended(s', Held(s', h)[i])
      ensures Owns(s', Held(s', h)[i])
    {
      var o := origin(h, i);
      assert Owns(s, Held(s, o.0)[o.1]);
    }
  }

  lemma TracedKeepsPlaces(s: State, s': State, origin: (Holder, nat) -> Place)
    requires Traced(s, s', origin) && Placed(s) && NoLeak(s')
    requires s'.store == s.store && s'.nextMarker == s.nextMarker && (MarkersKept(s') ==> MarkersKept(s))
    requires MarkersKept(s') ==>
      forall key :: key in s.pending && s.pending[key].session !in s.store.ended ==>
        key in s'.pending && s'.pending[key] == s.pending[key]
    ensures Placed(s')
  {
    hide Traced, OnePlace, JobsWellFormed, Ownership, NoLeak;
    TracedOnePlace(s, s', origin);
    TracedWellFormed(s, s', origin);
    if MarkersKept(s') {
      TracedOwnership(s, s', origin);
    }
  }

  // A scheduler tick

  ghost function TickOrigin(s: State, order: seq<int>, at: int, h: Holder, i: nat): Place {
    match h
    case InSlot(t) =>
      var ix := PickIx(Slot(s.scheduled, t), Kept, t, at, s.store.ended);
      (h, if i < |ix| then ix[i] else 0)
    case InReady =>
      var ix := GatherIx(s.scheduled, order, Ready, at, s.store.ended);
      if i < |ix| then (InSlot(ix[i].0), ix[i].1) else (h, i)
    case InDropped =>
      var ix := GatherIx(s.scheduled, order, Cancelled, at, s.store.ended);
      if i < |ix| then (InSlot(ix[i].0), ix[i].1) else (h, i)
    case _ => (h, i)
  }

  lemma HeldTick(s: State, order: seq<int>, at: int)
    ensures var s' := TickOf(s, order, at);
            && (forall t :: Held(s', InSlot(t)) == Pick(Slot(s.scheduled, t), Kept, t, at, s.store.ended))
            && Held(s', InReady) == Gather(s.scheduled, order, Ready, at, s.store.ended)
            && Held(s', InDropped) == Gather(s.scheduled, order, Cancelled, at, s.store.ended)
            && (forall h: Holder :: !h.InSlot? && !h.InReady? && !h.InDropped? ==> Held(s', h) == Held(s, h))
  {
    forall t ensures Held(TickOf(s, order, at), InSlot(t)) == Pick(Slot(s.scheduled, t), Kept, t, at, s.store.ended) {
      KeptSlot(s.scheduled, t, at, s.store.ended);
    }
  }

  // A place after the tick, its origin, and the fate that tells the three kinds of place apart.
  ghost predicate TickPlace(s: State, order: seq<int>, at: int, h: Holder, i: nat)
    requires i < |Held(TickOf(s, order, at), h)|
  {
    var s' := TickOf(s, order, at);
    var o := TickOrigin(s, order, at, h, i);
    && o.1 < |Held(s, o.0)| && Held(s', h)[i] == Held(s, o.0)[o.1]
    && (if h.InSlot? then o.0 == h && FateOf(Held(s', h)[i], h.t, at, s.store.ended) == Kept
        else if h.InReady? then o.0.InSlot? && FateOf(Held(s', h)[i], o.0.t, at, s.store.ended) == Ready
        else if h.InDropped? then o.0.InSlot? && FateOf(Held(s', h)[i], o.0.t, at, s.store.ended) == Cancelled
        else o == (h, i))
  }

  lemma TickKeeps(s: State, order: seq<int>, at: int, t: int, i: nat)
    requires i < |Held(TickOf(s, order, at), InSlot(t))|
    ensures TickPlace(s, order, at, InSlot(t), i)
  {
    KeptSlot(s.scheduled, t, at, s.store.ended);
    PickIsFilter(Slot(s.scheduled, t), Kept, t, at, s.store.ended);
  }

  lemma TickGathers(s: State, order: seq<int>, at: int, h: Holder, i: nat)
    requires NoRepeat(order) && (h.InReady? || h.InDropped?) && i < |Held(TickOf(s, order, at), h)|
    ensures TickPlace(s, order, at, h, i)
  {
    hide KeptSlots;
    var fate := if h.InReady? then Ready else Cancelled;
    GatherLocates(s.scheduled, order, fate, at, s.store.ended);
    var p := GatherIx(s.scheduled, order, fate, at, s.store.ended)[i];
    assert Held(s, InSlot(p.0)) == Slot(s.scheduled, p.0);
  }

  lemma TickPlaces(s: State, order: seq<int>, at: int, h: Holder, i: nat)
    requires NoRepeat(order) && i < |Held(TickOf(s, order, at), h)|
    ensures TickPlace(s, order, at, h, i)
  {
    hide TickPlace, KeptSlots, Gather;
    match h
    case InSlot(t) => TickKeeps(s, order, at, t, i);
    case InReady => TickGathers(s, order, at, h, i);
    case InDropped => TickGathers(s, order, at, h, i);
    case _ => TickLeaves(s, order, at, h, i);
  }

  lemma TickLeaves(s: State, order: seq<int>, at: int, h: Holder, i: nat)
    requires !h.InSlot? && !h.InReady? && !h.InDropped? && i < |Held(TickOf(s, order, at), h)|
    ensures TickPlace(s, order, at, h, i)
  {
    hide KeptSlots, Gather;
  }

  lemma TickInjective(s: State, order: seq<int>, at: int, h: Holder, i: nat, g: Holder, j: nat)
    requires NoRepeat(order) && i < |Held(TickOf(s, order, at), h)| && j < |Held(TickOf(s, order, at), g)|
    requires TickOrigin(s, order, at, h, i) == TickOrigin(s, order, at, g, j)
    ensures h == g && i == j
  {
    hide Held, TickOrigin;
    TickPlaces(s, order, at, h, i);
    TickPlaces(s, order, at, g, j);
    assert h == g;
    InjectiveWithin(s, order, at, h, i, j);
  }

  lemma InjectiveWithin(s: State, order: seq<int>, at: int, h: Holder, i: nat, j: nat)
    requires NoRepeat(order) && i < |Held(TickOf(s, order, at), h)| && j < |Held(TickOf(s, order, at), h)|
    requires TickOrigin(s, order, at, h, i) == TickOrigin(s, order, at, h, j)
    ensures i == j
  {
    hide KeptSlots, Gather, Pick;
    HeldTick(s, order, at);
    match h
    case InSlot(t) => PickIsFilter(Slot(s.scheduled, t), Kept, t, at, s.store.ended);
    case InReady => GatherLocates(s.scheduled, order, Ready, at, s.store.ended);
    case InDropped => GatherLocates(s.scheduled, order, Cancelled, at, s.store.ended);
    case _ =>
  }

  lemma TickTraced(s: State, order: seq<int>, at: int)
    requires NoRepeat(order)
    ensures Traced(s, TickOf(s, order, at), (h, i) => TickOrigin(s, order, at, h, i))
  {
    hide TickOrigin, Held;
    var s' := TickOf(s, order, at);
    forall h, i | 0 <= i < |Held(s', h)|
      ensures var o := TickOrigin(s, order, at, h, i); o.1 < |Held(s, o.0)| && Held(s', h)[i] == Held(s, o.0)[o.1]
    {
      TickPlaces(s, order, at, h, i);
    }
    forall h: Holder, i: nat | i < |Held(s', h)| ensures Claims(s', h) ==> Claims(s, TickOrigin(s, order, at, h, i).0) {
      TickPlaces(s, order, at, h, i);
    }
    forall h, i, g, j |
      0 <= i < |Held(s', h)| && 0 <= j < |Held(s', g)| && TickOrigin(s, order, at, h, i) == TickOrigin(s, order, at, g, j)
      ensures h == g && i == j
    {
      TickInjective(s, order, at, h, i, g, j);
    }
  }

  // Every job that was anywhere is still somewhere after the tick.
  lemma TickLosesNone(s: State, order: seq<int>, at: int, key: JobKey, marker: Marker)
    requires RoundEnabled(s, Tick(order, at)) && HasHolder(s, key, marker)
    ensures HasHolder(TickOf(s, order, at), key, marker)
  {
    hide KeptSlots, Gather, Pick;
    var h, i :| 0 <= i < |Held(s, h)| && Held(s, h)[i].Key() == key && Held(s, h)[i].marker == marker;
    if h.InSlot? {
      ScheduledSurvives(s, order, at, h.t, i);
    } else {
      assert Held(TickOf(s, order, at), h)[i] == Held(s, h)[i];
    }
  }

  lemma EachOnce(order: seq<int>, sched: Schedule, t: int)
    requires Enumerates(order, sched) && t in sched
    ensures NoRepeat(order) && t in order
  {
  }

  lemma ScheduledSurvives(s: State, order: seq<int>, at: int, t: int, i: nat)
    requires Enumerates(order, s.scheduled) && i < |Slot(s.scheduled, t)|
    ensures var job := Slot(s.scheduled, t)[i];
            HasHolder(TickOf(s, order, at), job.Key(), job.marker)
  {
    hide KeptSlots, Gather, Pick, PickIx, GatherIx, FateOf, Enumerates;
    var s' := TickOf(s, order, at);
    var job := Slot(s.scheduled, t)[i];
    var fate := FateOf(job, t, at, s.store.ended);
    assert NoRepeat(order) && t in order by { EachOnce(order, s.scheduled, t); }
    if fate.Kept? {
      KeptSlot(s.scheduled, t, at, s.store.ended);
      PickIsFilter(Slot(s.scheduled, t), Kept, t, at, s.store.ended);
      var ix := PickIx(Slot(s.scheduled, t), Kept, t, at, s.store.ended);
      var k :| 0 <= k < |ix| && ix[k] == i;
      assert Held(s', InSlot(t))[k] == job;
    } else {
      GatherLocates(s.scheduled, order, fate, at, s.store.ended);
      var ix := GatherIx(s.scheduled, order, fate, at, s.store.ended);
      assert (t, i) in ix;
      var k :| 0 <= k < |ix| && ix[k] == (t, i);
      assert Held(s', if fate.Ready? then InReady else InDropped)[k] == job;
    }
  }

  lemma TickKeepsSchedule(sched: Schedule, now: int, ended: set<SessionId>)
    requires ScheduleOk(sched)
    ensures ScheduleOk(KeptSlots(sched, now, ended))
  {
    forall t | t in sched
      ensures var ix, kept := PickIx(sched[t], Kept, t, now, ended), Pick(sched[t], Kept, t, now, ended);
              && |ix| == |kept| && Increasing(ix, |sched[t]|)
              && forall i :: 0 <= i < |ix| ==> kept[i] == sched[t][ix[i]]
    {
      PickIsFilter(sched[t], Kept, t, now, ended);
    }
  }

  // The ready jobs are due.
  lemma GatheredAreDue(s: State, order: seq<int>, at: int)
    requires RoundEnabled(s, Tick(order, at)) && ScheduleOk(s.scheduled)
    ensures RoundPunctual(TickOf(s, order, at).round, s.now)
  {
    var ready := Gather(s.scheduled, order, Ready, at, s.store.ended);
    GatherLocates(s.scheduled, order, Ready, at, s.store.ended);
    forall i | 0 <= i < |ready| ensures ready[i].time <= at {
      var p := GatherIx(s.scheduled, order, Ready, at, s.store.ended)[i];
      assert s.scheduled[p.0][p.1].time == p.0;
    }
  }

  lemma StepTick(s: State, order: seq<int>, at: int)
    requires Inv(s) && RoundEnabled(s, Tick(order, at))
    ensures Inv(RoundApply(s, Tick(order, at)))
  {
    hide Placed, StoreOk, MarkersOk, ScheduleOk, ProducersOk, WorkersPunctual, RoundPunctual, KeptSlots, Gather;
    TickKeepsSchedule(s.scheduled, at, s.store.ended);
    GatheredAreDue(s, order, at);
    TickKeepsPlaces(s, order, at);
  }

  lemma TickKeepsPlaces(s: State, order: seq<int>, at: int)
    requires Placed(s) && RoundEnabled(s, Tick(order, at))
    ensures Placed(TickOf(s, order, at))
  {
    hide Traced, HasHolder, OnePlace, JobsWellFormed, Ownership;
    var s' := TickOf(s, order, at);
    TickTraced(s, order, at);
    forall key | key in s'.pending && Tracked(s', key) ensures HasHolder(s', key, s'.pending[key]) {
      TickLosesNone(s, order, at, key, s.pending[key]);
    }
    TracedKeepsPlaces(s, s', (h, i) => TickOrigin(s, order, at, h, i));
  }

  // cancelPendingJobs

  ghost function CancelOrigin(s: State, key: PeerKey, session: SessionId, h: Holder, i: nat): Place {
    match h
    case InSlot(t) =>
      var ix := OthersIx(Slot(s.scheduled, t), key, session);
      (h, if i < |ix| then ix[i] else 0)
    case _ => (h, i)
  }

  function CancelOf(s: State, key: PeerKey, session: SessionId): State {
    s.(pending := CancelMarkers(s.pending, key, session), scheduled := CancelScheduled(s.scheduled, key, session))
  }

  lemma HeldCancel(s: State, key: PeerKey, session: SessionId)
    ensures var s' := CancelOf(s, key, session);
            && (forall t :: Held(s', InSlot(t)) == Others(Slot(s.scheduled, t), key, session))
            && (forall h: Holder :: !h.InSlot? ==> Held(s', h) == Held(s, h))
  {
    forall t ensures Held(CancelOf(s, key, session), InSlot(t)) == Others(Slot(s.scheduled, t), key, session) {
      OtherSlot(s.scheduled, key, session, t);
    }
  }

  lemma CancelPlace(s: State, key: PeerKey, session: SessionId, h: Holder, i: nat)
    requires i < |Held(CancelOf(s, key, session), h)|
    ensures var o := CancelOrigin(s, key, session, h, i);
            o.0 == h && o.1 < |Held(s, h)| && Held(CancelOf(s, key, session), h)[i] == Held(s, h)[o.1]
  {
    hide CancelScheduled, Others;
    HeldCancel(s, key, session);
    if h.InSlot? {
      OthersIsFilter(Slot(s.scheduled, h.t), key, session);
    }
  }

  lemma CancelInjective(s: State, key: PeerKey, session: SessionId, h: Holder, i: nat, j: nat)
    requires i < |Held(CancelOf(s, key, session), h)| && j < |Held(CancelOf(s, key, session), h)|
    requires CancelOrigin(s, key, session, h, i) == CancelOrigin(s, key, session, h, j)
    ensures i == j
  {
    hide CancelScheduled, Others;
    HeldCancel(s, key, session);
    if h.InSlot? {
      OthersIsFilter(Slot(s.scheduled, h.t), key, session);
    }
  }

  lemma CancelTraced(s: State, key: PeerKey, session: SessionId)
    ensures Traced(s, CancelOf(s, key, session), (h, i) => CancelOrigin(s, key, session, h, i))
  {
    hide CancelOrigin, CancelScheduled, Held;
    var s' := CancelOf(s, key, session);
    forall h, i | 0 <= i < |Held(s', h)|
      ensures var o := CancelOrigin(s, key, session, h, i); o.0 == h && o.1 < |Held(s, h)| && Held(s', h)[i] == Held(s, h)[o.1]
    {
      CancelPlace(s, key, session, h, i);
    }
    forall h, i, g, j |
      0 <= i < |Held(s', h)| && 0 <= j < |Held(s', g)| && CancelOrigin(s, key, session, h, i) == CancelOrigin(s, key, session, g, j)
      ensures h == g && i == j
    {
      CancelPlace(s, key, session, h, i);
      CancelPlace(s, key, session, g, j);
      CancelInjective(s, key, session, h, i, j);
    }
  }

  // A job that stays anywhere but in a slot, or is not of the cancelled session, is still held.
  lemma CancelSpares(s: State, key: PeerKey, session: SessionId, h: Holder, i: nat)
    requires i < |Held(s, h)| && (h.InSlot? ==> !OfSession(Held(s, h)[i], key, session))
    ensures var job := Held(s, h)[i]; HasHolder(CancelOf(s, key, session), job.Key(), job.marker)
  {
    hide CancelScheduled, Others;
    var s' := CancelOf(s, key, session);
    HeldCancel(s, key, session);
    if h.InSlot? {
      OthersIsFilter(Slot(s.scheduled, h.t), key, session);
      var ix := OthersIx(Slot(s.scheduled, h.t), key, session);
      var k :| 0 <= k < |ix| && ix[k] == i;
      assert Held(s', h)[k] == Held(s, h)[i];
    } else {
      assert Held(s', h)[i] == Held(s, h)[i];
    }
  }

  lemma ScheduledAreNamed(s: State, t: int, i: nat)
    requires ScheduleNamed(s.scheduled) && i < |Slot(s.scheduled, t)|
    ensures Slot(s.scheduled, t)[i].name != ""
  {
    assert AllNamed(s.scheduled[t]);
  }

  // A tracked marker that survives the scan loses no job to the schedule scan.
  lemma CancelNoLeak(s: State, key: PeerKey, session: SessionId)
    requires NoLeak(s) && Named(s)
    ensures NoLeak(CancelOf(s, key, session))
  {
    hide CancelScheduled;
    var s' := CancelOf(s, key, session);
    forall k | k in s'.pending && Tracked(s', k) ensures HasHolder(s', k, s'.pending[k]) {
      assert HasHolder(s, k, s.pending[k]);
      var h, i :| 0 <= i < |Held(s, h)| && Held(s, h)[i].Key() == k && Held(s, h)[i].marker == s.pending[k];
      if h.InSlot? && !s.unnamedDeferred {
        ScheduledAreNamed(s, h.t, i);
      }
      CancelSpares(s, key, session, h, i);
    }
  }

  lemma CancelKeepsSchedule(sched: Schedule, key: PeerKey, session: SessionId)
    requires ScheduleOk(sched)
    ensures ScheduleOk(CancelScheduled(sched, key, session))
  {
    forall t | t in sched
      ensures var ix, kept := OthersIx(sched[t], key, session), Others(sched[t], key, session);
              && |ix| == |kept| && Increasing(ix, |sched[t]|)
              && forall i :: 0 <= i < |ix| ==> kept[i] == sched[t][ix[i]]
    {
      OthersIsFilter(sched[t], key, session);
    }
  }

  lemma StepCancelJobs(s: State, key: PeerKey, session: SessionId)
    requires Inv(s) && Named(s) && TableEnabled(s, CancelJobs(key, session))
    ensures Inv(TableApply(s, CancelJobs(key, session)))
  {
    hide Placed, Named, StoreOk, ScheduleOk, ProducersOk, WorkersPunctual, RoundPunctual, CancelScheduled;
    CancelKeepsSchedule(s.scheduled, key, session);
    CancelKeepsPlaces(s, key, session);
    if s.scheduled == map[] {
      EmptyStaysEmpty(key, session);
    }
  }

  lemma EmptyStaysEmpty(key: PeerKey, session: SessionId)
    ensures CancelScheduled(map[], key, session) == map[]
  {
  }

  lemma CancelKeepsPlaces(s: State, key: PeerKey, session: SessionId)
    requires Placed(s) && Named(s) && session in s.store.ended
    ensures Placed(CancelOf(s, key, session))
  {
    hide Traced, Named, NoLeak, OnePlace, JobsWellFormed, Ownership, CancelScheduled;
    CancelTraced(s, key, session);
    CancelNoLeak(s, key, session);
    TracedKeepsPlaces(s, CancelOf(s, key, session), (h, i) => CancelOrigin(s, key, session, h, i));
  }

  // Stop: once the markers are gone, jobs are only thrown away.

  lemma StepStopMarkers(s: State)
    requires Inv(s) && StopEnabled(s, StopMarkers)
    ensures Inv(StopApply(s, StopMarkers))
  {
    hide Placed, StoreOk, ScheduleOk, ProducersOk, WorkersPunctual, RoundPunctual;
    var s' := s.(stop := MarkersCleared, pending := map[]);
    assert Held(s', InQueue) == Held(s, InQueue);
    StopKeepsPlaces(s, s', (h, i) => (h, i));
  }

  lemma StepStopSchedule(s: State)
    requires Inv(s) && StopEnabled(s, StopSchedule)
    ensures Inv(StopApply(s, StopSchedule))
  {
    hide Placed, StoreOk, MarkersOk, ProducersOk, WorkersPunctual, RoundPunctual;
    StopKeepsPlaces(s, s.(stop := ScheduleCleared, scheduled := map[]), (h, i) => (h, i));
  }

  lemma StepStopDrain(s: State)
    requires Inv(s) && StopEnabled(s, StopDrain)
    ensures Inv(StopApply(s, StopDrain))
  {
    hide Placed, StoreOk, MarkersOk, ScheduleOk, ProducersOk, WorkersPunctual, RoundPunctual;
    StopKeepsPlaces(s, s.(queue := s.queue[1..]), (h, i) => if h == InQueue then (h, i + 1) else (h, i));
  }

  lemma StepStopReturn(s: State)
    requires Inv(s) && StopEnabled(s, StopReturn)
    ensures Inv(StopApply(s, StopReturn))
  {
    hide Placed, StoreOk, MarkersOk, ScheduleOk, ProducersOk, WorkersPunctual, RoundPunctual;
    StopKeepsPlaces(s, s.(stop := Stopped), (h, i) => (h, i));
  }

  lemma StopKeepsPlaces(s: State, s': State, origin: (Holder, nat) -> Place)
    requires Placed(s) && Traced(s, s', origin) && s'.pending == map[] && !MarkersKept(s')
    requires s'.store == s.store && s'.nextMarker == s.nextMarker
    ensures Placed(s')
  {
    hide Traced, OnePlace, JobsWellFormed, Ownership;
    TracedKeepsPlaces(s, s', origin);
  }

  // Every action keeps the invariant.

  lemma TableInv(s: State, a: TableAction)
    requires Inv(s) && Named(s) && TableEnabled(s, a)
    ensures Inv(TableApply(s, a))
  {
    hide Inv, Named, TableApply, TableEnabled;
    match a
    case Announce(request) => StepAnnounce(s, request);
    case StopEvent(key) => StepStopEvent(s, key);
    case CancelJobs(key, session) => StepCancelJobs(s, key, session);
    case PurgePeers(age) => StepPurge(s, age);
    case CloseCancel => StepCloseCancel(s);
    case CloseClear => StepCloseClear(s);
    case PruneCache(at, maxPeerAge) => StepPrune(s, at, maxPeerAge);
    case DisableForwarder(name) => StepDisable(s, name);
    case Suspend(name, until) => StepSuspend(s, name, until);
  }

  lemma ProducerInv(s: State, p: ThreadId, a: ProducerAction)
    requires Inv(s) && ProducerEnabled(s, p, a)
    ensures Inv(ProducerApply(s, p, a))
  {
    hide Inv, ProducerApply, ProducerEnabled;
    match a
    case Begin(key, session) => StepBegin(s, p, key, session);
    case Reserve(name) => StepReserve(s, p, name);
    case Send => StepSend(s, p);
    case TakeBack => StepTakeBack(s, p);
    case End => StepEnd(s, p);
  }

  lemma WorkerInv(s: State, w: ThreadId, a: WorkerAction)
    requires Inv(s) && WorkerEnabled(s, w, a)
    ensures Inv(WorkerApply(s, w, a))
  {
    hide Inv, WorkerApply, WorkerEnabled;
    match a
    case Spawn => StepSpawn(s, w);
    case Exit => StepExit(s, w);
    case Take => StepTake(s, w);
    case Examine => StepExamine(s, w);
    case ScheduleEarly => StepScheduleEarly(s, w);
    case Publish(peers, interval) => StepPublish(s, w, peers, interval);
    case Abandon => StepAbandon(s, w);
    case DeferRetry(minutes, at) => StepDeferRetry(s, w, minutes, at);
    case InstallRetry => StepInstallRetry(s, w);
    case Finish => StepFinish(s, w);
  }

  lemma RoundInv(s: State, a: RoundAction)
    requires Inv(s) && RoundEnabled(s, a)
    ensures Inv(RoundApply(s, a))
  {
    hide Inv, RoundApply, RoundEnabled;
    match a
    case StartScheduler => StepScheduler(s);
    case ExitScheduler => StepScheduler(s);
    case EndRound => StepScheduler(s);
    case Tick(order, at) => StepTick(s, order, at);
    case DropOne => StepDropOne(s);
    case Enter => StepEnter(s);
    case Push => StepPush(s);
    case Move => StepMove(s);
    case Give => StepGive(s);
  }

  lemma StopInv(s: State, a: StopAction)
    requires Inv(s) && StopEnabled(s, a)
    ensures Inv(StopApply(s, a))
  {
    hide Inv, StopApply, StopEnabled;
    match a
    case StopFlag => StepStopFlag(s);
    case StopMarkers => StepStopMarkers(s);
    case StopSchedule => StepStopSchedule(s);
    case StopDrain => StepStopDrain(s);
    case StopReturn => StepStopReturn(s);
  }

  lemma StepInv(s: State, a: Action)
    requires Inv(s) && Named(s) && Enabled(s, a)
    ensures Inv(Apply(s, a))
  {
    hide Inv, Named, TableApply, ProducerApply, WorkerApply, RoundApply, StopApply;
    match a
    case Clock(to) => StepClock(s, to);
    case OnTables(table) => TableInv(s, table);
    case ByProducer(p, producer) => ProducerInv(s, p, producer);
    case ByWorker(w, work) => WorkerInv(s, w, work);
    case ByScheduler(scheduler) => RoundInv(s, scheduler);
    case ByStop(stop) => StopInv(s, stop);
  }
}
