// The guarantees of the lifecycle over whole runs.
module LifecycleRuns {
  import opened Types
  import opened CacheModel
  import opened StoreModel
  import opened ScheduleModel
  import opened Lifecycle
  import opened LifecycleInvariant
  import opened LifecycleNamed
  import LifecycleSteps
  import opened LifecycleBatches

  // A finite run from a fresh server, under any interleaving of critical sections.
  ghost predicate IsRun(states: seq<State>, actions: seq<Action>) {
    && |states| == |actions| + 1
    && (exists now, capacity :: ZERO_TIME <= now && states[0] == Init(now, capacity))
    && (forall i :: 0 <= i < |actions| ==> Enabled(states[i], actions[i]) && states[i + 1] == Apply(states[i], actions[i]))
  }

  lemma {:induction false} RunInv(states: seq<State>, actions: seq<Action>, i: nat)
    requires IsRun(states, actions) && i < |states|
    ensures Inv(states[i]) && Named(states[i])
  {
    hide Inv, Named, Enabled, Apply;
    if i == 0 {
      var now, capacity :| ZERO_TIME <= now && states[0] == Init(now, capacity);
      InitInv(now, capacity);
      InitNamed(now, capacity);
    } else {
      RunInv(states, actions, i - 1);
      StepInv(states[i - 1], actions[i - 1]);
      StepNamed(states[i - 1], actions[i - 1]);
    }
  }

  lemma InitNamed(now: int, capacity: nat)
    ensures Named(Init(now, capacity))
  {
  }

  // Markers

  // The first n actions defer no job of the unnamed forwarder. Its URI is empty too, so no request to it can
  // be answered, and only an answer asks for a retry.
  ghost predicate NeverDefersUnnamed(states: seq<State>, actions: seq<Action>, n: nat)
    requires n <= |actions| < |states|
  {
    forall i :: 0 <= i < n ==> !DefersUnnamed(states[i], actions[i])
  }

  lemma {:induction false} NothingRecorded(states: seq<State>, actions: seq<Action>, n: nat)
    requires IsRun(states, actions) && n < |states| && NeverDefersUnnamed(states, actions, n)
    ensures !states[n].unnamedDeferred
  {
    hide Enabled, Apply, DefersUnnamed;
    if n > 0 {
      NothingRecorded(states, actions, n - 1);
      StepRecords(states[n - 1], actions[n - 1]);
    }
  }

  // At most one live job per hash, forwarder and peer claims its marker, and it is the marker's owner.
  lemma OneLiveJobPerKey(states: seq<State>, actions: seq<Action>, n: nat, h: Holder, i: nat, g: Holder, j: nat)
    requires IsRun(states, actions) && n < |states| && MarkersKept(states[n])
    requires var s := states[n];
             && i < |Held(s, h)| && Claims(s, h) && !Ended(s, Held(s, h)[i])
             && j < |Held(s, g)| && Claims(s, g) && !Ended(s, Held(s, g)[j])
             && Held(s, h)[i].Key() == Held(s, g)[j].Key()
    ensures h == g && i == j && Owns(states[n], Held(states[n], h)[i])
  {
    RunInv(states, actions, n);
    assert Owns(states[n], Held(states[n], h)[i]) && Owns(states[n], Held(states[n], g)[j]);
  }

  // Every marker of a named forwarder, and of any forwarder while no job of the unnamed one was deferred,
  // belongs to exactly one job that is still somewhere.
  lemma MarkerHasOneJob(states: seq<State>, actions: seq<Action>, n: nat, key: JobKey)
    requires IsRun(states, actions) && n < |states| && key in states[n].pending
    requires key.name != "" || NeverDefersUnnamed(states, actions, n)
    ensures HasHolder(states[n], key, states[n].pending[key])
    ensures forall h, i, g, j ::
      (0 <= i < |Held(states[n], h)| && Held(states[n], h)[i].marker == states[n].pending[key] &&
       0 <= j < |Held(states[n], g)| && Held(states[n], g)[j].marker == states[n].pending[key]) ==> h == g && i == j
  {
    RunInv(states, actions, n);
    if key.name == "" {
      NothingRecorded(states, actions, n);
    }
    assert Tracked(states[n], key);
    assert OnePlace(states[n]);
  }

  ghost predicate Drained(s: State) {
    forall h :: Held(s, h) == []
  }

  // Once no job is left anywhere, no marker is left, unless a job of the unnamed forwarder was deferred; and
  // then at most markers of that forwarder.
  lemma DrainedLeavesNoMarker(states: seq<State>, actions: seq<Action>, n: nat)
    requires IsRun(states, actions) && n < |states| && Drained(states[n])
    ensures forall key :: key in states[n].pending ==> key.name == ""
    ensures NeverDefersUnnamed(states, actions, n) ==> states[n].pending == map[]
  {
    forall key | key in states[n].pending && (key.name != "" || NeverDefersUnnamed(states, actions, n))
      ensures HasHolder(states[n], key, states[n].pending[key])
    {
      MarkerHasOneJob(states, actions, n, key);
    }
    if NeverDefersUnnamed(states, actions, n) {
      assert forall key :: key !in states[n].pending;
    }
  }

  // Sessions and the upstream cache

  lemma DeleteGrows(st: Store, c: Cache, key: PeerKey)
    ensures st.ended <= StopPeer(st, c, key).0.ended
  {
    assert DeletePeer(st, c, key).0.ended == EndSession(st, key).ended;
  }

  lemma TableGrows(s: State, a: TableAction)
    requires TableEnabled(s, a)
    ensures s.store.ended <= TableApply(s, a).store.ended
  {
    hide StopPeer;
    if a.StopEvent? {
      DeleteGrows(s.store, s.cache, a.key);
    }
  }

  lemma ProducersLeaveStore(s: State, p: ThreadId, a: ProducerAction)
    requires ProducerEnabled(s, p, a)
    ensures ProducerApply(s, p, a).store == s.store && ProducerApply(s, p, a).cache == s.cache
  {
    hide ReserveOf, SendOf, FinishJob;
  }

  // Workers write to the cache only through Publish and DeferRetry, and never to the store.
  lemma WorkersLeaveStore(s: State, w: ThreadId, a: WorkerAction)
    requires WorkerEnabled(s, w, a)
    ensures WorkerApply(s, w, a).store == s.store
    ensures a.Publish? || a.DeferRetry? || WorkerApply(s, w, a).cache == s.cache
  {
    hide UpdatePeers, DeferAnnounce, ScheduleEarlyOf, InstallRetryOf, FinishJob, Examined, MayWrite, Stopping, DeferRetryOf, PublishOf;
  }

  lemma RoundLeavesStore(s: State, a: RoundAction)
    requires RoundEnabled(s, a)
    ensures RoundApply(s, a).store == s.store && RoundApply(s, a).cache == s.cache
  {
    hide EnterOf, PushOf, MoveOf, GiveOf, TickOf, FinishJob, Enumerates;
  }

  lemma StopLeavesStore(s: State, a: StopAction)
    requires StopEnabled(s, a)
    ensures StopApply(s, a).store == s.store && StopApply(s, a).cache == s.cache
  {
  }

  lemma StepGrows(s: State, a: Action)
    requires Enabled(s, a)
    ensures s.store.ended <= Apply(s, a).store.ended
  {
    hide TableApply, ProducerApply, WorkerApply, RoundApply,
         TableEnabled, ProducerEnabled, WorkerEnabled, RoundEnabled, StopEnabled, StopApply;
    match a
    case OnTables(table) => TableGrows(s, table);
    case ByProducer(p, producer) => ProducersLeaveStore(s, p, producer);
    case ByWorker(w, work) => WorkersLeaveStore(s, w, work);
    case ByScheduler(scheduler) => RoundLeavesStore(s, scheduler);
    case ByStop(stop) => StopLeavesStore(s, stop);
    case _ =>
  }

  lemma {:induction false} EndedStaysEnded(states: seq<State>, actions: seq<Action>, i: nat, k: nat)
    requires IsRun(states, actions) && i <= k < |states|
    ensures states[i].store.ended <= states[k].store.ended
    decreases k
  {
    hide Enabled, Apply;
    if i < k {
      EndedStaysEnded(states, actions, i, k - 1);
      StepGrows(states[k - 1], actions[k - 1]);
    }
  }

  // The job on whose behalf an action writes to the upstream cache: a result, a failure cooldown or a deferral.
  function Writer(s: State, a: Action): Option<Job> {
    if a.ByWorker? && (a.work.Publish? || a.work.DeferRetry?) && a.w in s.workers && s.workers[a.w].Executing?
       && MayWrite(s, s.workers[a.w].job)
    then Some(s.workers[a.w].job)
    else None
  }

  // Stale-session isolation: a cache write happens only while the job's session is its peer's current
  // one, so a session that ended earlier in the run never writes again, restarted peer or not.
  lemma WritesAreCurrent(states: seq<State>, actions: seq<Action>, k: nat)
    requires IsRun(states, actions) && k < |actions| && Writer(states[k], actions[k]).Some?
    ensures var job, st := Writer(states[k], actions[k]).value, states[k].store;
            && job.Peer() in st.sessions && st.sessions[job.Peer()] == job.marker.session
            && HasPeer(st, job.Peer())
            && forall i :: 0 <= i <= k ==> job.marker.session !in states[i].store.ended
  {
    hide Enabled, Apply, Inv;
    var s, w := states[k], actions[k].w;
    assert Held(s, AtWorker(w))[0] == s.workers[w].job;
    RunInv(states, actions, k);
    LifecycleSteps.LiveJobIsCurrent(s, AtWorker(w), 0);
    forall i | 0 <= i <= k ensures s.workers[w].job.marker.session !in states[i].store.ended {
      EndedStaysEnded(states, actions, i, k);
    }
  }

  // Nothing else adds or changes an entry: an action that is not a write for (hash, forwarder) leaves
  // the entry as it was or removes it; pruning may also drop its peers.
  ghost predicate SameOrPruned(c: Cache, c': Cache, h: InfoHash, name: string) {
    name in At(c', h) ==>
      name in At(c, h) && (At(c', h)[name] == At(c, h)[name] || At(c', h)[name] == At(c, h)[name].(peers := []))
  }

  lemma OnlyWritersWrite(s: State, a: Action, h: InfoHash, name: string)
    requires Enabled(s, a)
    requires Writer(s, a).Some? ==> Writer(s, a).value.infoHash != h || Writer(s, a).value.name != name
    ensures SameOrPruned(s.cache, Apply(s, a).cache, h, name)
  {
    hide TableApply, ProducerApply, RoundApply, WorkerApply, SameOrPruned,
         TableEnabled, ProducerEnabled, WorkerEnabled, RoundEnabled, StopEnabled, StopApply;
    match a
    case OnTables(table) => TablesOnlyClean(s, table, h, name);
    case ByProducer(p, producer) => ProducersLeaveStore(s, p, producer); SamePruned(s.cache, h, name);
    case ByWorker(w, work) => WorkersTouchOne(s, w, work, h, name);
    case ByScheduler(scheduler) => RoundLeavesStore(s, scheduler); SamePruned(s.cache, h, name);
    case ByStop(stop) => StopLeavesStore(s, stop); SamePruned(s.cache, h, name);
    case _ => SamePruned(s.cache, h, name);
  }

  lemma SamePruned(c: Cache, h: InfoHash, name: string)
    ensures SameOrPruned(c, c, h, name)
  {
  }

  lemma TablesOnlyClean(s: State, a: TableAction, h: InfoHash, name: string)
    requires TableEnabled(s, a)
    ensures SameOrPruned(s.cache, TableApply(s, a).cache, h, name)
  {
    hide Update, Purge, StopPeer, CancelMarkers, CancelScheduled;
    match a
    case StopEvent(key) => StopOnlyCleans(s.store, s.cache, key, h);
    case PurgePeers(age) => PurgeOnlyCleans(s.store, s.cache, s.now, age, h);
    case _ =>
  }

  lemma WorkersTouchOne(s: State, w: ThreadId, a: WorkerAction, h: InfoHash, name: string)
    requires WorkerEnabled(s, w, a)
    requires Writer(s, ByWorker(w, a)).Some? ==> s.workers[w].job.infoHash != h || s.workers[w].job.name != name
    ensures SameOrPruned(s.cache, WorkerApply(s, w, a).cache, h, name)
  {
    hide AddJob, CanSchedule, FinishJob;
    match a
    case Publish(peers, interval) =>
    case DeferRetry(minutes, at) =>
    case _ => WorkersLeaveStore(s, w, a);
  }

  lemma StopOnlyCleans(st: Store, c: Cache, key: PeerKey, h: InfoHash)
    ensures h in StopPeer(st, c, key).1 ==> h in c && StopPeer(st, c, key).1[h] == c[h]
  {
  }

  lemma PurgeOnlyCleans(st: Store, c: Cache, now: int, age: int, h: InfoHash)
    ensures h in Purge(st, c, now, age).1 ==> h in c && Purge(st, c, now, age).1[h] == c[h]
  {
  }

  // Every cached hash has a local peer and at least one entry; every live session is current and stored.
  lemma SharedHashLifetime(states: seq<State>, actions: seq<Action>, n: nat)
    requires IsRun(states, actions) && n < |states|
    ensures forall h :: h in states[n].cache ==> h in states[n].store.requests && states[n].cache[h] != map[]
    ensures forall h :: h in states[n].store.requests ==> states[n].store.requests[h] != map[]
    ensures forall id :: 0 <= id < |states[n].store.issued| && id !in states[n].store.ended ==>
      var key := states[n].store.issued[id];
      key in states[n].store.sessions && states[n].store.sessions[key] == id && HasPeer(states[n].store, key)
  {
    RunInv(states, actions, n);
  }

  // Retries

  // No job runs before its scheduled time, which is never before the instant its upstream asked for.
  lemma NoRetryRunsEarly(states: seq<State>, actions: seq<Action>, n: nat, w: ThreadId)
    requires IsRun(states, actions) && n < |states| && w in states[n].workers && states[n].workers[w].Executing?
    ensures var work := states[n].workers[w];
            work.job.asked <= work.job.time <= work.since <= states[n].now
  {
    RunInv(states, actions, n);
    assert Held(states[n], AtWorker(w))[0] == states[n].workers[w].job;
    HeldIsWellFormed(states[n], AtWorker(w), 0);
  }

  // A deferral asks for exactly the upstream's delay, and the retry it installs waits at least that long.
  lemma DeferralWaits(s: State, w: ThreadId, minutes: int, at: int)
    requires Inv(s) && WorkerEnabled(s, w, DeferRetry(minutes, at)) && MayWrite(s, s.workers[w].job)
    ensures var s' := WorkerApply(s, w, DeferRetry(minutes, at));
            && s'.workers[w].Deferred?
            && RetryJob(s', s'.workers[w]).asked == at + minutes * MINUTE
            && RetryJob(s', s'.workers[w]).time ==
               Max(at + minutes * MINUTE, EntryAt(s.cache, s.workers[w].job.infoHash, s.workers[w].job.name).nextAnnounce)
            && EntryAt(s'.cache, s.workers[w].job.infoHash, s.workers[w].job.name).nextAnnounce == RetryJob(s', s'.workers[w]).time
  {
    hide Inv;
  }

  // At most one job per hash and forwarder is scheduled, each under its own time.
  lemma ScheduleIsUnique(states: seq<State>, actions: seq<Action>, n: nat, t: int, i: nat, u: int, j: nat)
    requires IsRun(states, actions) && n < |states|
    requires i < |Slot(states[n].scheduled, t)| && j < |Slot(states[n].scheduled, u)|
    ensures Slot(states[n].scheduled, t)[i].time == t
    ensures SameUpstream(Slot(states[n].scheduled, t)[i], Slot(states[n].scheduled, u)[j]) ==> t == u && i == j
  {
    RunInv(states, actions, n);
  }

  // Shutdown

  lemma {:induction false} StoppedForGood(states: seq<State>, actions: seq<Action>, i: nat, k: nat)
    requires IsRun(states, actions) && i <= k < |states| && states[i].stop.Stopped?
    ensures states[k].stop.Stopped?
    ensures states[k].queue == [] && states[k].scheduled == map[] && states[k].pending == map[]
    ensures states[k].workers == map[] && states[k].producers == map[] && states[k].round.Off?
    decreases k
  {
    hide StoreOk, MarkersOk, ScheduleOk, ProducersOk, WorkersPunctual, RoundPunctual, Placed;
    if i < k {
      StoppedForGood(states, actions, i, k - 1);
    }
    RunInv(states, actions, k);
  }
}
