// The key scan of cancelPendingJobs never matches the empty forwarder name. Markers of that forwarder can
// outlive their jobs if, and only if, one of its jobs is ever deferred, which takes an answer from a tracker
// with an empty URI.
module UnnamedForwarder {
  import opened Types
  import opened CacheModel
  import opened StoreModel
  import opened ScheduleModel
  import opened Lifecycle
  import opened LifecycleInvariant
  import opened LifecycleBatches
  import opened LifecycleRuns

  // A marker of this forwarder that belongs to no job, before Stop: its key can never be queued again.
  ghost predicate Orphaned(s: State, name: string) {
    s.stop.Running? && exists key :: key in s.pending && key.name == name && !HasHolder(s, key, s.pending[key])
  }

  // Some run leaves an orphaned marker of this forwarder; `answered` says whether a tracker with an empty URI
  // may ask for a retry in it.
  ghost predicate CanLeak(name: string, answered: bool) {
    exists states, actions ::
      && IsRun(states, actions) && |actions| < |states|
      && (answered || NeverDefersUnnamed(states, actions, |actions|))
      && Orphaned(states[|actions|], name)
  }

  const TWENTY_ZEROS: Bytes := [0, 0, 0, 0, 0, 0, 0, 0, 0, 0, 0, 0, 0, 0, 0, 0, 0, 0, 0, 0]
  const PEER := PeerKey(InfoHash(TWENTY_ZEROS), PeerID(TWENTY_ZEROS))
  const REQUEST := Request(PEER.infoHash, PEER.peerID, "", "", 1, 0, 50, "", 0)
  const UNNAMED := JobKey(PEER.infoHash, "", PEER.peerID)
  const FIRST := Job(PEER.infoHash, "", PEER.peerID, ZERO_TIME, ZERO_TIME, Marker(0, 0))
  const RETRY := Job(PEER.infoHash, "", PEER.peerID, MINUTE, MINUTE, Marker(1, 0))
  const STORED := Store(map[PEER.infoHash := map[PEER.peerID := REQUEST]], map[PEER := 0], [PEER], {}, false)
  const COOLDOWN: Cache := map[PEER.infoHash := map["" := Entry([], 0, ZERO_TIME, MINUTE)]]

  function At0(pending: Pending, queue: seq<Job>, producers: map<ThreadId, Producer>, workers: map<ThreadId, Work>, next: nat): State {
    State(0, STORED, map[], pending, queue, 1, map[], map[], producers, workers, Off, next, Running, false)
  }

  function Retried(workers: map<ThreadId, Work>): State {
    State(0, STORED, COOLDOWN, map[UNNAMED := RETRY.marker], [], 1, map[MINUTE := [RETRY]], map[], map[], workers, Off, 2, Running, true)
  }

  const OWNED: Pending := map[UNNAMED := FIRST.marker]

  function Stopped(s: State): State {
    s.(store := Store(map[], map[], [PEER], {0}, false), cache := map[])
  }

  // A peer announces, its job for the unnamed forwarder is queued and then deferred, and the peer stops.
  function LeakState(i: nat): State {
    if i == 0 then Init(0, 1)
    else if i == 1 then At0(map[], [], map[], map[], 0)
    else if i == 2 then At0(map[], [], map[0 := Offering(PEER, 0)], map[], 0)
    else if i == 3 then At0(OWNED, [], map[0 := Sending(PEER, 0, FIRST)], map[], 1)
    else if i == 4 then At0(OWNED, [FIRST], map[0 := Offering(PEER, 0)], map[], 1)
    else if i == 5 then At0(OWNED, [FIRST], map[], map[], 1)
    else if i == 6 then At0(OWNED, [FIRST], map[], map[0 := Idle], 1)
    else if i == 7 then At0(OWNED, [], map[], map[0 := Taken(FIRST)], 1)
    else if i == 8 then At0(OWNED, [], map[], map[0 := Executing(FIRST, 0)], 1)
    else if i == 9 then At0(OWNED, [], map[], map[0 := Deferred(FIRST, MINUTE, MINUTE)], 1).(cache := COOLDOWN, unnamedDeferred := true)
    else if i == 10 then Retried(map[0 := Finishing(FIRST)])
    else if i == 11 then Retried(map[0 := Idle])
    else if i == 12 then Stopped(Retried(map[0 := Idle]))
    else Stopped(Retried(map[0 := Idle])).(scheduled := map[])
  }

  function LeakAction(i: nat): Action {
    if i == 0 then OnTables(Announce(REQUEST))
    else if i == 1 then ByProducer(0, Begin(PEER, 0))
    else if i == 2 then ByProducer(0, Reserve(""))
    else if i == 3 then ByProducer(0, Send)
    else if i == 4 then ByProducer(0, End)
    else if i == 5 then ByWorker(0, Spawn)
    else if i == 6 then ByWorker(0, Take)
    else if i == 7 then ByWorker(0, Examine)
    else if i == 8 then ByWorker(0, DeferRetry(1, 0))
    else if i == 9 then ByWorker(0, InstallRetry)
    else if i == 10 then ByWorker(0, Finish)
    else if i == 11 then OnTables(StopEvent(PEER))
    else OnTables(CancelJobs(PEER, 0))
  }

  ghost predicate LeadsOn(i: nat) {
    Enabled(LeakState(i), LeakAction(i)) && Apply(LeakState(i), LeakAction(i)) == LeakState(i + 1)
  }

  lemma LeakProduces(i: nat)
    requires i < 5
    ensures LeadsOn(i)
  {
    if i == 4 {
      assert map[0 := Offering(PEER, 0)] - {0} == map[];
    }
  }

  lemma LeakTakes(i: nat)
    requires 5 <= i < 7
    ensures LeadsOn(i)
  {
  }

  lemma LeakExamines(i: nat)
    requires i == 7 || i == 10
    ensures LeadsOn(i)
  {
  }

  lemma LeakDefers()
    ensures LeadsOn(8)
  {
  }

  lemma LeakInstalls()
    ensures LeadsOn(9)
  {
    var s := LeakState(9);
    assert s.workers[0] == Deferred(FIRST, MINUTE, MINUTE);
    assert RetryJob(s, s.workers[0]) == RETRY;
    assert !Duplicate(map[], RETRY);
    var empty: Schedule := map[];
    assert Slot(empty, MINUTE) + [RETRY] == [RETRY];
    assert AddJob(empty, RETRY) == map[MINUTE := [RETRY]];
  }

  lemma LeakStops()
    ensures LeadsOn(11)
  {
    var s := LeakState(11);
    assert s.store.requests[PEER.infoHash] - {PEER.peerID} == map[];
    assert s.store.requests - {PEER.infoHash} == map[];
    assert Cleanup(COOLDOWN, PEER.infoHash) == map[];
    assert Cleanup(map[], PEER.infoHash) == map[];
  }

  // The scan skips the unnamed marker, but the schedule scan drops the job.
  lemma LeakCancels()
    ensures LeadsOn(12)
  {
    var s := LeakState(12);
    assert CancelMarkers(s.pending, PEER, 0) == s.pending;
    assert Others([RETRY], PEER, 0) == [] by {
      assert [RETRY][..0] == [];
    }
    assert CancelScheduled(s.scheduled, PEER, 0) == map[];
  }

  lemma LeakStep(i: nat)
    requires i < 13
    ensures LeadsOn(i)
  {
    hide LeadsOn;
    if i < 5 { LeakProduces(i); }
    else if i < 7 { LeakTakes(i); }
    else if i == 8 { LeakDefers(); }
    else if i == 9 { LeakInstalls(); }
    else if i == 11 { LeakStops(); }
    else if i == 12 { LeakCancels(); }
    else { LeakExamines(i); }
  }

  // This is a run, and it ends with an orphan.
  lemma LeakIsRun() returns (states: seq<State>, actions: seq<Action>)
    ensures IsRun(states, actions) && |states| == |actions| + 1 && Orphaned(states[|actions|], "")
  {
    hide Enabled, Apply, LeakState, LeakAction, Orphaned;
    states, actions := seq(14, i requires 0 <= i => LeakState(i)), seq(13, i requires 0 <= i => LeakAction(i));
    LeakStartsAndEnds();
    var now, capacity := 0, 1;
    assert ZERO_TIME <= now && states[0] == Init(now, capacity);
    forall i | 0 <= i < 13 ensures Enabled(states[i], actions[i]) && states[i + 1] == Apply(states[i], actions[i]) {
      LeakStep(i);
    }
  }

  lemma LeakStartsAndEnds()
    ensures LeakState(0) == Init(0, 1) && Orphaned(LeakState(13), "")
  {
    var s := LeakState(13);
    assert forall h :: Held(s, h) == [];
    assert UNNAMED in s.pending;
  }

  // An orphaned marker belongs to the unnamed forwarder, one of whose jobs was deferred earlier in the run.
  lemma LeakNeedsDeferral(states: seq<State>, actions: seq<Action>, name: string)
    requires IsRun(states, actions) && Orphaned(states[|actions|], name)
    ensures name == "" && !NeverDefersUnnamed(states, actions, |actions|)
  {
    hide HasHolder, NeverDefersUnnamed;
    var s := states[|actions|];
    if name != "" || NeverDefersUnnamed(states, actions, |actions|) {
      forall key | key in s.pending && key.name == name ensures HasHolder(s, key, s.pending[key]) {
        MarkerHasOneJob(states, actions, |actions|, key);
      }
    }
  }

  // Markers of a forwarder can leak if and only if it has no name and a tracker with an empty URI can ask for
  // a retry. The HTTP client cannot get an answer from one, so no marker leaks.
  lemma LeaksIffAnswered(name: string, answered: bool)
    ensures CanLeak(name, answered) <==> name == "" && answered
  {
    hide IsRun, Orphaned, NeverDefersUnnamed;
    if name == "" && answered {
      var states, actions := LeakIsRun();
    } else {
      forall states, actions |
        IsRun(states, actions) && |actions| < |states| && (answered || NeverDefersUnnamed(states, actions, |actions|))
        ensures !Orphaned(states[|actions|], name)
      {
        if Orphaned(states[|actions|], name) {
          LeakNeedsDeferral(states, actions, name);
        }
      }
    }
  }
}
