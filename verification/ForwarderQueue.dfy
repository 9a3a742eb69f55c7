// The job tables of forwarderManager.go and forwarderAnnounce.go, updated in place. Every method is one
// critical section, or one uninterrupted sequence of them, of the lifecycle state machine.
module ForwarderQueue {
  import opened Types
  import opened StoreModel
  import opened ScheduleModel
  import opened TickModel
  import opened JobKeys
  import opened Lifecycle
  import opened ReadyJobs
  import PeerStorage

  const ZERO_JOB := Job(InfoHash([]), "", PeerID([]), ZERO_TIME, ZERO_TIME, Marker(0, 0))

  // The compaction of one slot: kept jobs move to the front of their own array, the tail is cleared.
  method CompactSlot(jobs: array<Job>, t: int, now: int, ended: set<SessionId>)
    returns (n: nat, canceled: seq<Job>, ready: seq<Job>)
    modifies jobs
    ensures n <= jobs.Length
    ensures jobs[..n] == Pick(old(jobs[..]), Kept, t, now, ended)
    ensures canceled == Pick(old(jobs[..]), Cancelled, t, now, ended)
    ensures ready == Pick(old(jobs[..]), Ready, t, now, ended)
    ensures forall job :: job in canceled <==> job in old(jobs[..]) && job.marker.session in ended
    ensures forall job :: job in ready <==> job in old(jobs[..]) && job.marker.session !in ended && t <= now
    ensures forall job :: job in jobs[..n] <==> job in old(jobs[..]) && job.marker.session !in ended && now < t
    ensures forall i :: n <= i < jobs.Length ==> jobs[i] == ZERO_JOB
  {
    n, canceled, ready := 0, [], [];
    var i := 0;
    ghost var was := jobs[..];
    SlotSorts(was, t, now, ended);
    while i < jobs.Length
      invariant n <= i <= jobs.Length
      invariant jobs[..n] == Pick(was[..i], Kept, t, now, ended)
      invariant canceled == Pick(was[..i], Cancelled, t, now, ended)
      invariant ready == Pick(was[..i], Ready, t, now, ended)
      invariant jobs[i..] == was[i..]
    {
      var job := jobs[i];
      assert job == was[i] && was[..i + 1][..i] == was[..i];
      if job.marker.session in ended {
        canceled := canceled + [job];
      } else if !(now < t) {
        ready := ready + [job];
      } else {
        jobs[n] := job;
        n := n + 1;
      }
      assert jobs[i + 1..] == was[i..][1..] == was[i + 1..];
      i := i + 1;
    }
    assert was[..i] == was;
    var k := n;
    while k < jobs.Length
      invariant n <= k <= jobs.Length
      invariant jobs[..n] == Pick(was, Kept, t, now, ended)
      invariant forall j :: n <= j < k ==> jobs[j] == ZERO_JOB
    {
      jobs[k] := ZERO_JOB;
      k := k + 1;
    }
  }

  lemma SlotSorts(js: seq<Job>, t: int, now: int, ended: set<SessionId>)
    ensures forall job :: job in Pick(js, Cancelled, t, now, ended) <==> job in js && job.marker.session in ended
    ensures forall job :: job in Pick(js, Ready, t, now, ended) <==> job in js && job.marker.session !in ended && t <= now
    ensures forall job :: job in Pick(js, Kept, t, now, ended) <==> job in js && job.marker.session !in ended && now < t
  {
    hide Pick;
    forall job
      ensures job in Pick(js, Cancelled, t, now, ended) <==> job in js && job.marker.session in ended
      ensures job in Pick(js, Ready, t, now, ended) <==> job in js && job.marker.session !in ended && t <= now
      ensures job in Pick(js, Kept, t, now, ended) <==> job in js && job.marker.session !in ended && now < t
    {
      PickedIs(js, Cancelled, t, now, ended, job);
      PickedIs(js, Ready, t, now, ended, job);
      PickedIs(js, Kept, t, now, ended, job);
    }
  }

  // Removing one text key removes one structured key.
  lemma OnlyText(texts: map<string, Marker>, pending: Pending, key: JobKey)
    requires Represents(texts, pending) && ValidKey(key)
    ensures Without(pending, {Text(key)}) == pending - {key}
  {
    hide Text;
    forall k | k in pending && Text(k) == Text(key) ensures k == key {
      TextInjective(k, key);
    }
  }

  // Removing the scanned text keys cancels the markers of that peer and session.
  lemma ScannedMarkers(texts: map<string, Marker>, pending: Pending, gone: set<string>, key: PeerKey, session: SessionId)
    requires Represents(texts, pending) && ValidIds(key)
    requires forall text :: text in gone <==> text in texts && texts[text].session == session && ScanMatches(text, key)
    ensures Without(pending, gone) == CancelMarkers(pending, key, session)
  {
    hide Text, ScanMatches;
    forall k | k in pending
      ensures Text(k) in gone <==>
        pending[k].session == session && k.infoHash == key.infoHash && k.peerID == key.peerID && k.name != ""
    {
      ScanIsExact(k, key);
    }
  }

  lemma GatherNone(sched: Schedule, now: int, ended: set<SessionId>)
    ensures Gather(sched, [], Cancelled, now, ended) == [] && Gather(sched, [], Ready, now, ended) == []
  {
  }

  lemma GatherNext(sched: Schedule, order: seq<int>, k: nat, now: int, ended: set<SessionId>)
    requires k < |order| && order[k] in sched
    ensures forall fate :: Gather(sched, order[..k + 1], fate, now, ended) ==
                           Gather(sched, order[..k], fate, now, ended) + Pick(sched[order[k]], fate, order[k], now, ended)
  {
    assert order[..k + 1][..k] == order[..k];
  }

  lemma SlotsKept(was: Schedule, sched: Schedule, now: int, ended: set<SessionId>)
    requires forall t :: t in sched <==> t in was && Pick(was[t], Kept, t, now, ended) != []
    requires forall t :: t in sched ==> sched[t] == Pick(was[t], Kept, t, now, ended)
    ensures sched == KeptSlots(was, now, ended)
  {
    hide Pick;
  }

  class ForwarderManager {
    const MainStorage: PeerStorage.Storage
    const capacity: nat

    var pendingJobs: map<string, Marker>
    var jobQueue: seq<Job>
    var scheduledJobs: Schedule
    var suspendedForwarders: map<string, int>
    var nextMarker: nat
    var stopping: bool

    // The structured keys that the text keys of pendingJobs stand for.
    ghost var pending: Pending

    ghost predicate Ok()
      reads `pendingJobs, `pending
    {
      Represents(pendingJobs, pending)
    }

    // The tables as a state of the lifecycle, for one scheduler round.
    ghost function AsState(now: int, round: Round): State
      reads this, MainStorage, MainStorage.forwarderStorage
    {
      State(now, MainStorage.View(), MainStorage.forwarderStorage.Entries, pending, jobQueue, capacity, scheduledJobs,
            suspendedForwarders, map[], map[], round, nextMarker, if stopping then Joining else Running, false)
    }

    constructor (mainStorage: PeerStorage.Storage, capacity: nat)
      ensures Ok() && MainStorage == mainStorage && this.capacity == capacity
      ensures pending == map[] && jobQueue == [] && scheduledJobs == map[] && !stopping
    {
      MainStorage, this.capacity := mainStorage, capacity;
      pendingJobs, pending, jobQueue, scheduledJobs, suspendedForwarders := map[], map[], [], map[], map[];
      nextMarker, stopping := 0, false;
    }

    predicate Canceled(job: Job)
      reads MainStorage
    {
      job.marker.session in MainStorage.ended
    }

    method FinishJob(job: Job)
      requires Ok() && ValidIds(job.Peer())
      modifies `pendingJobs, `pending
      ensures Ok() && pending == ScheduleModel.FinishJob(old(pending), job)
    {
      hide Text, Represents;
      var key := Text(job.Key());
      RepresentsLookup(pendingJobs, pending, job.Key());
      if key in pendingJobs && pendingJobs[key] == job.marker {
        RemoveMarkers({key});
        OnlyText(old(pendingJobs), old(pending), job.Key());
      }
    }

    method RemoveMarkers(keys: set<string>)
      requires Ok()
      modifies `pendingJobs, `pending
      ensures Ok()
      ensures pending == Without(old(pending), keys)
    {
      RepresentsRemove(pendingJobs, pending, keys);
      pendingJobs := pendingJobs - keys;
      pending := Without(pending, keys);
    }

    method PutMarker(key: JobKey, marker: Marker)
      requires Ok() && ValidKey(key)
      modifies `pendingJobs, `pending
      ensures Ok() && pending == old(pending)[key := marker]
    {
      RepresentsPut(pendingJobs, pending, key, marker);
      pendingJobs := pendingJobs[Text(key) := marker];
      pending := pending[key := marker];
    }

    // The slot keys in the order in which a range over the map happens to visit them.
    method SlotTimes() returns (order: seq<int>)
      ensures Enumerates(order, scheduledJobs)
    {
      order := [];
      var times := scheduledJobs.Keys;
      while exists t :: t in times
        invariant times <= scheduledJobs.Keys
        invariant forall t :: t in scheduledJobs <==> t in times || t in order
        invariant forall t :: t in order ==> t !in times
        invariant NoRepeat(order)
        decreases times
      {
        var t :| t in times;
        order, times := order + [t], times - {t};
      }
    }

    // scheduleJob scans every slot for a job of the same hash and forwarder.
    method ScheduleJob(job: Job) returns (scheduled: bool)
      modifies `scheduledJobs
      ensures scheduled == CanSchedule(old(scheduledJobs), MainStorage.ended, stopping, job)
      ensures scheduledJobs == if scheduled then AddJob(old(scheduledJobs), job) else old(scheduledJobs)
    {
      if Canceled(job) || stopping {
        return false;
      }
      var order := SlotTimes();
      for n := 0 to |order|
        invariant forall k :: 0 <= k < n ==> forall j :: j in scheduledJobs[order[k]] ==> !SameUpstream(j, job)
        invariant scheduledJobs == old(scheduledJobs)
      {
        var t := order[n];
        var jobs := scheduledJobs[t];
        var i := 0;
        while i < |jobs|
          invariant i <= |jobs|
          invariant forall k :: 0 <= k < i ==> !SameUpstream(jobs[k], job)
          invariant scheduledJobs == old(scheduledJobs)
        {
          if jobs[i].infoHash == job.infoHash && jobs[i].name == job.name {
            assert SameUpstream(jobs[i], job) && jobs[i] in scheduledJobs[t];
            return false;
          }
          i := i + 1;
        }
      }
      scheduledJobs := scheduledJobs[job.time := (if job.time in scheduledJobs then scheduledJobs[job.time] else []) + [job]];
      return true;
    }

    // cancelPendingJobs for the session that ended.
    method CancelPendingJobs(key: PeerKey, session: SessionId)
      requires Ok() && ValidIds(key)
      modifies `pendingJobs, `pending, `scheduledJobs
      ensures Ok() && pending == CancelMarkers(old(pending), key, session)
      ensures scheduledJobs == CancelScheduled(old(scheduledJobs), key, session)
    {
      hide Represents;
      var keysToRemove := ScanMarkers(key, session);
      ScannedMarkers(pendingJobs, pending, keysToRemove, key, session);
      RemoveMarkers(keysToRemove);
      CancelScheduledJobs(key, session);
    }

    method ScanMarkers(key: PeerKey, session: SessionId) returns (keysToRemove: set<string>)
      ensures forall text :: text in keysToRemove <==>
        text in pendingJobs && pendingJobs[text].session == session && ScanMatches(text, key)
    {
      hide Hex;
      keysToRemove := {};
      var keys := pendingJobs.Keys;
      while keys != {}
        invariant keys <= pendingJobs.Keys
        invariant forall text :: text in keysToRemove <==>
          text in pendingJobs && text !in keys && pendingJobs[text].session == session && ScanMatches(text, key)
        decreases keys
      {
        var text :| text in keys;
        keys := keys - {text};
        if pendingJobs[text].session == session {
          var expectedPrefix, expectedSuffix := Prefix(key.infoHash), Suffix(key.peerID);
          if |text| > |expectedPrefix| + |expectedSuffix| {
            if text[..|expectedPrefix|] == expectedPrefix && text[|text| - |expectedSuffix|..] == expectedSuffix {
              keysToRemove := keysToRemove + {text};
            }
          }
        }
      }
    }

    method CancelScheduledJobs(key: PeerKey, session: SessionId)
      modifies `scheduledJobs
      ensures scheduledJobs == CancelScheduled(old(scheduledJobs), key, session)
    {
      ghost var was := scheduledJobs;
      var order := SlotTimes();
      for k := 0 to |order|
        invariant forall t :: t in scheduledJobs <==> t in was && (t !in order[..k] || Others(was[t], key, session) != [])
        invariant forall t :: t in scheduledJobs ==>
          scheduledJobs[t] == if t !in order[..k] then was[t] else Others(was[t], key, session)
      {
        var t := order[k];
        assert t !in order[..k] && order[..k + 1] == order[..k] + [t];
        var jobs := CancelSlot(scheduledJobs[t], key, session);
        if |jobs| == 0 {
          scheduledJobs := scheduledJobs - {t};
        } else {
          scheduledJobs := scheduledJobs[t := jobs];
        }
      }
      assert order[..|order|] == order && forall t :: t in was ==> t in order;
      ghost var left := CancelScheduled(was, key, session);
      assert forall t :: t in scheduledJobs <==> t in left;
      assert forall t :: t in left ==> scheduledJobs[t] == left[t];
      assert scheduledJobs == left;
    }

    method CancelSlot(slot: seq<Job>, key: PeerKey, session: SessionId) returns (kept: seq<Job>)
      ensures kept == Others(slot, key, session)
    {
      var jobs := new Job[|slot|](i requires 0 <= i < |slot| => slot[i]);
      assert jobs[..] == slot;
      var n := CompactOthers(jobs, key, session);
      kept := jobs[..n];
    }

    // One pass of the scheduler over the schedule, in whatever order the map yields its slots.
    method SchedulerTick(now: int) returns (canceled: seq<Job>, ready: seq<Job>, order: seq<int>)
      modifies `scheduledJobs
      ensures Enumerates(order, old(scheduledJobs))
      ensures AsState(now, Draining(now, canceled, ready, Unlocked)) == TickOf(old(AsState(now, Waiting)), order, now)
      ensures forall job :: job in canceled <==> job.marker.session in MainStorage.ended && Scheduled(old(scheduledJobs), job)
      ensures forall job :: job in ready <==>
        job.marker.session !in MainStorage.ended && exists t :: t in old(scheduledJobs) && t <= now && job in old(scheduledJobs)[t]
      ensures OnlyLater(old(scheduledJobs), scheduledJobs, now, MainStorage.ended)
    {
      hide Gather, KeptSlots, Enumerates;
      ghost var was := scheduledJobs;
      canceled, ready, order := ScanSchedule(now);
      TickSorts(was, order, now, MainStorage.ended);
    }

    method ScanSchedule(now: int) returns (canceled: seq<Job>, ready: seq<Job>, order: seq<int>)
      modifies `scheduledJobs
      ensures Enumerates(order, old(scheduledJobs))
      ensures canceled == Gather(old(scheduledJobs), order, Cancelled, now, MainStorage.ended)
      ensures ready == Gather(old(scheduledJobs), order, Ready, now, MainStorage.ended)
      ensures scheduledJobs == KeptSlots(old(scheduledJobs), now, MainStorage.ended)
    {
      hide Pick, Gather, KeptSlots;
      ghost var was, ended := scheduledJobs, MainStorage.ended;
      canceled, ready := [], [];
      order := SlotTimes();
      GatherNone(was, now, ended);
      assert order[..0] == [];
      var timesToRemove: set<int> := {};
      for k := 0 to |order|
        invariant scheduledJobs.Keys == was.Keys
        invariant forall t :: t in timesToRemove <==> t in order[..k] && Pick(was[t], Kept, t, now, ended) == []
        invariant forall t :: t in was && t !in timesToRemove ==>
          scheduledJobs[t] == if t !in order[..k] then was[t] else Pick(was[t], Kept, t, now, ended)
        invariant canceled == Gather(was, order[..k], Cancelled, now, ended)
        invariant ready == Gather(was, order[..k], Ready, now, ended)
      {
        var t := order[k];
        assert t !in order[..k] && order[..k + 1] == order[..k] + [t];
        var slot, cs, rs := TickSlot(scheduledJobs[t], t, now);
        canceled, ready := canceled + cs, ready + rs;
        GatherNext(was, order, k, now, ended);
        if |slot| == 0 {
          timesToRemove := timesToRemove + {t};
        } else {
          scheduledJobs := scheduledJobs[t := slot];
        }
      }
      assert order[..|order|] == order && forall t :: t in was ==> t in order;
      scheduledJobs := scheduledJobs - timesToRemove;
      SlotsKept(was, scheduledJobs, now, ended);
    }

    method TickSlot(slot: seq<Job>, t: int, now: int) returns (kept: seq<Job>, canceled: seq<Job>, ready: seq<Job>)
      ensures kept == Pick(slot, Kept, t, now, MainStorage.ended)
      ensures canceled == Pick(slot, Cancelled, t, now, MainStorage.ended)
      ensures ready == Pick(slot, Ready, t, now, MainStorage.ended)
    {
      var jobs := new Job[|slot|](i requires 0 <= i < |slot| => slot[i]);
      assert jobs[..] == slot;
      var n;
      n, canceled, ready := CompactSlot(jobs, t, now, MainStorage.ended);
      kept := jobs[..n];
    }

    method GetSuspendedUntil(name: string, now: int) returns (until: Option<int>)
      modifies `suspendedForwarders
      ensures (suspendedForwarders, until) == Suspension(old(suspendedForwarders), name, now)
      ensures until.Some? <==> name in old(suspendedForwarders) && now <= old(suspendedForwarders)[name]
      ensures until.Some? ==> until.value == old(suspendedForwarders)[name] && suspendedForwarders == old(suspendedForwarders)
      ensures until.None? ==> suspendedForwarders == old(suspendedForwarders) - {name}
    {
      if name !in suspendedForwarders {
        return None;
      }
      var at := suspendedForwarders[name];
      if now > at {
        suspendedForwarders := suspendedForwarders - {name};
        return None;
      }
      return Some(at);
    }

    // A ready job goes to the queue, back to the schedule, or away.
    method ProcessScheduledReadyJob(job: Job, now: int)
      requires Ok() && ValidIds(job.Peer())
      modifies this
      ensures Ok()
      ensures AsState(now, Draining(now, [], [], Unlocked)) == ProcessReady(old(AsState(now, Draining(now, [], [job], Unlocked))))
    {
      hide Represents, MoveOrGiveOf, ScheduleModel.FinishJob;
      assert [job][1..] == [];
      if stopping {
        FinishJob(job);
        return;
      }
      if Canceled(job) {
        FinishJob(job);
        return;
      }
      var suspendedUntil := GetSuspendedUntil(job.name, now);
      if suspendedUntil.Some? {
        var rescheduleAt := suspendedUntil.value;
        if !(rescheduleAt > now) {
          rescheduleAt := now + SECOND;
        }
        MoveOrFinish(job, now, rescheduleAt);
        return;
      }
      if |jobQueue| < capacity {
        jobQueue := jobQueue + [job];
      } else {
        MoveOrFinish(job, now, now + 10 * SECOND);
      }
    }

    method MoveOrFinish(job: Job, now: int, at: int)
      requires Ok() && ValidIds(job.Peer())
      modifies this
      ensures Ok()
      ensures AsState(now, Draining(now, [], [], Unlocked)) == MoveOrGiveOf(old(AsState(now, Draining(now, [], [job], Moving(at)))))
    {
      hide Represents, ScheduleModel.FinishJob, AddJob, Duplicate;
      assert [job][1..] == [];
      var scheduled := ScheduleJob(job.(time := at));
      if !scheduled {
        FinishJob(job);
      }
    }

    // The locked section of handleRetryError: install the retry's marker, and put the previous one back
    // if the retry cannot be scheduled.
    method InstallRetry(retry: Job) returns (scheduled: bool)
      requires Ok() && ValidIds(retry.Peer())
      modifies `pendingJobs, `pending, `scheduledJobs
      ensures Ok() && scheduled == CanSchedule(old(scheduledJobs), MainStorage.ended, stopping, retry)
      ensures scheduledJobs == if scheduled then AddJob(old(scheduledJobs), retry) else old(scheduledJobs)
      ensures pending == if scheduled then old(pending)[retry.Key() := retry.marker] else old(pending)
    {
      hide Text, Represents, Duplicate, Without;
      if Canceled(retry) {
        return false;
      }
      var key := retry.Key();
      RepresentsLookup(pendingJobs, pending, key);
      var previous := if Text(key) in pendingJobs then Some(pendingJobs[Text(key)]) else None;
      PutMarker(key, retry.marker);
      scheduled := ScheduleJob(retry);
      if !scheduled {
        if previous.Some? {
          PutMarker(key, previous.value);
          assert pending == old(pending);
        } else {
          OnlyText(pendingJobs, pending, key);
          RemoveMarkers({Text(key)});
          assert pending == old(pending);
        }
      }
    }
  }

  // The compaction of cancelPendingJobs.
  method CompactOthers(jobs: array<Job>, key: PeerKey, session: SessionId) returns (n: nat)
    modifies jobs
    ensures n <= jobs.Length
    ensures jobs[..n] == Others(old(jobs[..]), key, session)
    ensures forall i :: n <= i < jobs.Length ==> jobs[i] == ZERO_JOB
  {
    n := 0;
    var i := 0;
    ghost var was := jobs[..];
    while i < jobs.Length
      invariant n <= i <= jobs.Length
      invariant jobs[..n] == Others(was[..i], key, session)
      invariant jobs[i..] == was[i..]
    {
      var job := jobs[i];
      assert job == was[i] && was[..i + 1][..i] == was[..i];
      if job.infoHash != key.infoHash || job.peerID != key.peerID || job.marker.session != session {
        assert !OfSession(job, key, session);
        jobs[n] := job;
        n := n + 1;
      }
      assert jobs[i + 1..] == was[i..][1..] == was[i + 1..];
      i := i + 1;
    }
    assert was[..i] == was;
    var k := n;
    while k < jobs.Length
      invariant n <= k <= jobs.Length
      invariant jobs[..n] == Others(was, key, session)
      invariant forall j :: n <= j < k ==> jobs[j] == ZERO_JOB
    {
      jobs[k] := ZERO_JOB;
      k := k + 1;
    }
  }
}
