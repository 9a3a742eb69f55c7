// queueEligibleAnnounces as it runs, without interruption, on the tables of the manager.
module AnnounceQueueing {
  import opened Types
  import opened CacheModel
  import opened StoreModel
  import opened ScheduleModel
  import opened JobKeys
  import opened ForwarderQueue
  import opened Lifecycle
  import opened Selection

  // maxForwardersPerAnnounce, queueThrottleThresh and queueThrottleTopN.
  datatype Limits = Limits(maxForwarders: int, throttleThreshold: int, throttleTopN: int)

  // queueFillPct
  function FillPercent(length: nat, capacity: nat): int {
    if capacity == 0 then 0 else length * 100 / capacity
  }

  // Throttling replaces the configured maximum by topN, even when topN is larger.
  function Limit(limits: Limits, length: nat, capacity: nat): int {
    if FillPercent(length, capacity) >= limits.throttleThreshold && limits.throttleTopN > 0
    then limits.throttleTopN else limits.maxForwarders
  }

  function KeyFor(key: PeerKey, name: string): JobKey {
    JobKey(key.infoHash, name, key.peerID)
  }

  function JobFor(key: PeerKey, session: SessionId, name: string, id: nat): Job {
    Job(key.infoHash, name, key.peerID, ZERO_TIME, ZERO_TIME, Marker(id, session))
  }

  // One immediate job per served candidate, with consecutive new markers.
  function JobsFor(key: PeerKey, session: SessionId, cs: seq<Candidate>, next: nat): seq<Job> {
    seq(|cs|, i requires 0 <= i < |cs| => JobFor(key, session, cs[i].name, next + i))
  }

  function WithMarkers(pending: Pending, jobs: seq<Job>): Pending {
    if jobs == [] then pending
    else WithMarkers(pending, jobs[..|jobs| - 1])[jobs[|jobs| - 1].Key() := jobs[|jobs| - 1].marker]
  }

  ghost function SnapshotOf(fm: ForwarderManager, key: PeerKey, now: int): Snapshot
    reads fm, fm.MainStorage, fm.MainStorage.forwarderStorage
  {
    Snapshot(key, fm.pending, fm.suspendedForwarders, fm.MainStorage.forwarderStorage.Entries, now)
  }

  // The markers put so far are those of the names served so far.
  lemma {:induction false} MarkedNames(pending: Pending, key: PeerKey, session: SessionId, cs: seq<Candidate>, next: nat, name: string)
    ensures KeyFor(key, name) in WithMarkers(pending, JobsFor(key, session, cs, next)) <==>
            KeyFor(key, name) in pending || name in Names(cs)
  {
    if cs != [] {
      var front, last := cs[..|cs| - 1], cs[|cs| - 1];
      var jobs := JobsFor(key, session, cs, next);
      assert jobs[..|jobs| - 1] == JobsFor(key, session, front, next);
      MarkedNames(pending, key, session, front, next, name);
      NamesGrow(front, last);
      assert cs == front + [last];
    }
  }

  lemma NamesGrow(cs: seq<Candidate>, c: Candidate)
    ensures Names(cs + [c]) == Names(cs) + {c.name}
  {
    forall name | name in Names(cs) + {c.name} ensures name in Names(cs + [c]) {
      if name in Names(cs) {
        var i :| 0 <= i < |cs| && cs[i].name == name;
        assert (cs + [c])[i].name == name;
      } else {
        assert (cs + [c])[|cs|].name == name;
      }
    }
  }

  lemma MarkOneMore(pending: Pending, key: PeerKey, session: SessionId, cs: seq<Candidate>, c: Candidate, next: nat)
    ensures var job := JobFor(key, session, c.name, next + |cs|);
            && JobsFor(key, session, cs + [c], next) == JobsFor(key, session, cs, next) + [job]
            && WithMarkers(pending, JobsFor(key, session, cs + [c], next)) ==
               WithMarkers(pending, JobsFor(key, session, cs, next))[job.Key() := job.marker]
  {
    var job := JobFor(key, session, c.name, next + |cs|);
    var jobs := JobsFor(key, session, cs, next);
    assert JobsFor(key, session, cs + [c], next) == jobs + [job];
    assert (jobs + [job])[..|jobs|] == jobs;
  }

  // Serving two lists one after the other is serving their concatenation.
  lemma {:induction false} ServedAppend(a: seq<Candidate>, b: seq<Candidate>, taken: set<string>, left: int, room: nat)
    ensures var first := Served(a, taken, left, room);
            && |first| <= room
            && Served(a + b, taken, left, room) == first + Served(b, taken + Names(first), left - |first|, room - |first|)
    decreases |a|
  {
    var first := Served(a, taken, left, room);
    if a == [] || left <= 0 {
      assert a == [] ==> a + b == b;
      assert taken + Names(first) == taken;
    } else {
      assert (a + b)[1..] == a[1..] + b;
      if a[0].name in taken {
        ServedAppend(a[1..], b, taken, left, room);
      } else if room == 0 {
        NothingServed(b, taken + Names(first), left);
      } else {
        var taken' := taken + {a[0].name};
        var rest := Served(a[1..], taken', left - 1, room - 1);
        ServedAppend(a[1..], b, taken', left - 1, room - 1);
        NamesSplit(first);
        assert first[1..] == rest;
        assert taken + Names(first) == taken' + Names(rest);
      }
    }
  }

  lemma {:induction false} NothingServed(cs: seq<Candidate>, taken: set<string>, left: int)
    ensures Served(cs, taken, left, 0) == []
    decreases |cs|
  {
    if cs != [] {
      NothingServed(cs[1..], taken, left);
    }
  }

  // The `enqueue` closure: reserve the marker, send, or take the marker back when the queue is full.
  method Enqueue(fm: ForwarderManager, name: string, key: PeerKey, session: SessionId) returns (sent: bool, more: bool)
    requires fm.Ok() && ValidIds(key)
    modifies fm
    ensures fm.Ok()
    ensures fm.scheduledJobs == old(fm.scheduledJobs) && fm.suspendedForwarders == old(fm.suspendedForwarders)
    ensures fm.stopping == old(fm.stopping)
    ensures var skipped := KeyFor(key, name) in old(fm.pending) || session in fm.MainStorage.ended;
            && sent == (!skipped && |old(fm.jobQueue)| < fm.capacity)
            && more == (skipped || |old(fm.jobQueue)| < fm.capacity)
    ensures var job := JobFor(key, session, name, old(fm.nextMarker));
            && fm.jobQueue == (if sent then old(fm.jobQueue) + [job] else old(fm.jobQueue))
            && fm.pending == (if sent then old(fm.pending)[job.Key() := job.marker] else old(fm.pending))
    ensures fm.nextMarker == old(fm.nextMarker) + if sent || !more then 1 else 0
  {
    hide Represents, Text;
    var job := JobFor(key, session, name, fm.nextMarker);
    RepresentsLookup(fm.pendingJobs, fm.pending, job.Key());
    if Text(job.Key()) in fm.pendingJobs || fm.Canceled(job) {
      return false, true;
    }
    fm.PutMarker(job.Key(), job.marker);
    fm.nextMarker := fm.nextMarker + 1;
    if |fm.jobQueue| < fm.capacity {
      fm.jobQueue := fm.jobQueue + [job];
      return true, true;
    }
    fm.FinishJob(job);
    assert old(fm.pending)[job.Key() := job.marker] - {job.Key()} == old(fm.pending);
    return false, false;
  }

  // In the lifecycle, a candidate that is sent is a Reserve and a Send, and one that meets a full queue a
  // Reserve, a Send and a TakeBack; the tables end as `Enqueue` leaves them.
  lemma EnqueueRefines(s: State, p: ThreadId, name: string)
    requires p in s.producers && s.producers[p].Offering?
    requires KeyFor(s.producers[p].key, name) !in s.pending && s.producers[p].session !in s.store.ended
    ensures var key, session := s.producers[p].key, s.producers[p].session;
            var job, s1 := JobFor(key, session, name, s.nextMarker), ReserveOf(s, p, name);
            && s1.producers[p].Sending?
            && (|s.queue| < s.capacity ==>
                  SendOf(s1, p) ==
                  s.(pending := s.pending[job.Key() := job.marker], queue := s.queue + [job], nextMarker := s.nextMarker + 1))
            && (|s.queue| >= s.capacity ==>
                  && ProducerEnabled(SendOf(s1, p), p, TakeBack)
                  && ProducerApply(SendOf(s1, p), p, TakeBack) == s.(producers := s.producers - {p}, nextMarker := s.nextMarker + 1))
  {
    hide ReserveOf;
    ReserveRefines(s, p, name);
    var key, session := s.producers[p].key, s.producers[p].session;
    var job, s1 := JobFor(key, session, name, s.nextMarker), ReserveOf(s, p, name);
    if |s.queue| < s.capacity {
      assert s1.producers[p := Offering(key, session)] == s.producers;
    } else {
      TakeBackRefines(s, p, s1, job);
    }
  }

  lemma ReserveRefines(s: State, p: ThreadId, name: string)
    requires p in s.producers && s.producers[p].Offering?
    requires KeyFor(s.producers[p].key, name) !in s.pending && s.producers[p].session !in s.store.ended
    ensures var key, session := s.producers[p].key, s.producers[p].session;
            var job := JobFor(key, session, name, s.nextMarker);
            ReserveOf(s, p, name) ==
            s.(producers := s.producers[p := Sending(key, session, job)], pending := s.pending[job.Key() := job.marker],
               nextMarker := s.nextMarker + 1)
  {
  }

  lemma TakeBackRefines(s: State, p: ThreadId, s1: State, job: Job)
    requires p in s.producers && job.Key() !in s.pending && |s.queue| >= s.capacity
    requires s1 == s.(producers := s.producers[p := Sending(s.producers[p].key, s.producers[p].session, job)],
                      pending := s.pending[job.Key() := job.marker], nextMarker := s.nextMarker + 1)
    ensures ProducerEnabled(SendOf(s1, p), p, TakeBack)
    ensures ProducerApply(SendOf(s1, p), p, TakeBack) == s.(producers := s.producers - {p}, nextMarker := s.nextMarker + 1)
  {
    assert s1.pending - {job.Key()} == s.pending;
    assert SendOf(s1, p).producers - {p} == s.producers - {p};
  }

  // One of the two enqueue loops, after `before` has been queued.
  method EnqueueAll(fm: ForwarderManager, cs: seq<Candidate>, key: PeerKey, session: SessionId, limit: int,
                    before: seq<Candidate>, ghost pending: Pending, ghost queue: seq<Job>, ghost next: nat)
    returns (queued: seq<Candidate>, more: bool)
    requires fm.Ok() && ValidIds(key) && |queue| + |before| <= fm.capacity
    requires fm.jobQueue == queue + JobsFor(key, session, before, next)
    requires fm.pending == WithMarkers(pending, JobsFor(key, session, before, next)) && fm.nextMarker == next + |before|
    requires forall c :: c in cs ==> KeyFor(key, c.name) !in pending
    modifies fm
    ensures fm.Ok()
    ensures fm.scheduledJobs == old(fm.scheduledJobs) && fm.suspendedForwarders == old(fm.suspendedForwarders)
    ensures fm.stopping == old(fm.stopping)
    ensures queued == before + if session in fm.MainStorage.ended then []
                               else Served(cs, Names(before), limit - |before|, fm.capacity - |queue| - |before|)
    ensures |queue| + |queued| <= fm.capacity
    ensures fm.jobQueue == queue + JobsFor(key, session, queued, next)
    ensures fm.pending == WithMarkers(pending, JobsFor(key, session, queued, next))
    ensures more ==> fm.nextMarker == next + |queued|
    ensures !more ==> |queue| + |queued| == fm.capacity && fm.nextMarker == next + |queued| + 1
  {
    hide WithMarkers, Represents, Names, ForwarderManager.Ok;
    queued, more := before, true;
    ghost var room := fm.capacity - |queue| - |before|;
    ghost var live := session !in fm.MainStorage.ended;
    ghost var want := Served(cs, Names(before), limit - |before|, room);
    var k := 0;
    while k < |cs|
      invariant k <= |cs| && before <= queued && |queue| + |queued| <= fm.capacity
      invariant fm.Ok() && more
      invariant fm.scheduledJobs == old(fm.scheduledJobs) && fm.suspendedForwarders == old(fm.suspendedForwarders)
      invariant fm.stopping == old(fm.stopping)
      invariant live ==> before + want == queued + Served(cs[k..], Names(queued), limit - |queued|, fm.capacity - |queue| - |queued|)
      invariant !live ==> queued == before
      invariant fm.jobQueue == queue + JobsFor(key, session, queued, next)
      invariant fm.pending == WithMarkers(pending, JobsFor(key, session, queued, next))
      invariant fm.nextMarker == next + |queued|
    {
      if |queued| >= limit {
        return;
      }
      var c := cs[k];
      MarkedNames(pending, key, session, queued, next, c.name);
      MarkOneMore(pending, key, session, queued, c, next);
      NamesGrow(queued, c);
      assert cs[k..][0] == c && cs[k..][1..] == cs[k + 1..];
      var sent;
      sent, more := Enqueue(fm, c.name, key, session);
      if !more {
        return;
      }
      if sent {
        queued := queued + [c];
      }
      k := k + 1;
    }
  }

  // The partition loop. isSuspended forgets suspensions that are over.
  method Partition(fm: ForwarderManager, key: PeerKey, forwarders: seq<string>, now: int)
    returns (eligibleNew: seq<Candidate>, eligibleDue: seq<Candidate>)
    requires fm.Ok() && ValidIds(key)
    modifies fm`suspendedForwarders
    ensures eligibleNew == Candidates(old(SnapshotOf(fm, key, now)), forwarders, false)
    ensures eligibleDue == Candidates(old(SnapshotOf(fm, key, now)), forwarders, true)
    ensures Forgets(old(fm.suspendedForwarders), fm.suspendedForwarders, now)
  {
    hide Represents, Text, ForwarderManager.Ok;
    ghost var snap := SnapshotOf(fm, key, now);
    eligibleNew, eligibleDue := [], [];
    for k := 0 to |forwarders|
      invariant fm.Ok()
      invariant eligibleNew == Candidates(snap, forwarders[..k], false)
      invariant eligibleDue == Candidates(snap, forwarders[..k], true)
      invariant Forgets(snap.suspended, fm.suspendedForwarders, now)
    {
      var name := forwarders[k];
      assert forwarders[..k + 1][..k] == forwarders[..k];
      var candidate := Consider(fm, key, name, k, now, snap);
      if candidate.Some? {
        if candidate.value.hasEntry {
          eligibleDue := eligibleDue + [candidate.value];
        } else {
          eligibleNew := eligibleNew + [candidate.value];
        }
      }
    }
    assert forwarders[..|forwarders|] == forwarders;
  }

  ghost predicate Forgets(was: map<string, int>, suspended: map<string, int>, now: int) {
    && (forall name :: name in suspended ==> name in was && suspended[name] == was[name])
    && (forall name :: name in was && name !in suspended ==> now > was[name])
  }

  method Consider(fm: ForwarderManager, key: PeerKey, name: string, order: nat, now: int, ghost snap: Snapshot)
    returns (candidate: Option<Candidate>)
    requires fm.Ok() && ValidIds(key) && snap == SnapshotOf(fm, key, now).(suspended := snap.suspended)
    requires Forgets(snap.suspended, fm.suspendedForwarders, now)
    modifies fm`suspendedForwarders
    ensures Forgets(snap.suspended, fm.suspendedForwarders, now)
    ensures candidate == if snap.Eligible(name) then Some(snap.Rank(name, order)) else None
  {
    hide Represents, Text, ValidIds;
    var until := fm.GetSuspendedUntil(name, now);
    if until.Some? {
      return None;
    }
    RepresentsLookup(fm.pendingJobs, fm.pending, KeyFor(key, name));
    if Text(KeyFor(key, name)) in fm.pendingJobs {
      return None;
    }
    var hasEntry, nextAnnounce := fm.MainStorage.forwarderStorage.GetAnnounceState(key.infoHash, name);
    if hasEntry && nextAnnounce > now {
      return None;
    }
    var overdue := 0;
    if hasEntry && nextAnnounce != ZERO_TIME {
      overdue := now - nextAnnounce;
      if overdue < 0 {
        overdue := 0;
      }
    }
    return Some(Candidate(name, order, overdue, hasEntry));
  }

  // The whole call, for the shuffled list `forwarders`: the tables change by exactly the selected jobs.
  method QueueEligibleAnnounces(fm: ForwarderManager, key: PeerKey, session: SessionId, forwarders: seq<string>,
                                limits: Limits, now: int)
    returns (queued: seq<Candidate>)
    requires fm.Ok() && ValidIds(key) && |fm.jobQueue| <= fm.capacity
    modifies fm
    ensures fm.Ok()
    ensures queued == if fm.stopping || session in fm.MainStorage.ended then []
                      else Selected(old(SnapshotOf(fm, key, now)), forwarders,
                                    Limit(limits, |old(fm.jobQueue)|, fm.capacity), fm.capacity - |old(fm.jobQueue)|)
    ensures forall name :: name in Names(queued) ==>
      && name in forwarders
      && (name in old(fm.suspendedForwarders) ==> old(fm.suspendedForwarders)[name] < now)
      && JobKey(key.infoHash, name, key.peerID) !in old(fm.pending)
      && var f := At(fm.MainStorage.forwarderStorage.Entries, key.infoHash); (name in f ==> f[name].nextAnnounce <= now)
    ensures forall name :: !fm.stopping && session !in fm.MainStorage.ended && name in forwarders && name !in Names(queued) ==>
      || (name in old(fm.suspendedForwarders) && old(fm.suspendedForwarders)[name] >= now)
      || JobKey(key.infoHash, name, key.peerID) in old(fm.pending)
      || (var f := At(fm.MainStorage.forwarderStorage.Entries, key.infoHash); name in f && f[name].nextAnnounce > now)
      || |queued| == Min(Max(Limit(limits, |old(fm.jobQueue)|, fm.capacity), 0), fm.capacity - |old(fm.jobQueue)|)
    ensures |queued| <= Max(Limit(limits, |old(fm.jobQueue)|, fm.capacity), 0)
    ensures fm.jobQueue == old(fm.jobQueue) + JobsFor(key, session, queued, old(fm.nextMarker))
    ensures fm.pending == WithMarkers(old(fm.pending), JobsFor(key, session, queued, old(fm.nextMarker)))
    ensures fm.nextMarker >= old(fm.nextMarker) + |queued|
    ensures fm.scheduledJobs == old(fm.scheduledJobs) && fm.stopping == old(fm.stopping)
    ensures Forgets(old(fm.suspendedForwarders), fm.suspendedForwarders, now)
  {
    hide ForwarderManager.Ok, Candidates, SortDue, Served, Selected, Names, JobsFor, SnapshotOf, Limit, ValidIds;
    queued := [];
    NamesOfNone();
    TableSelection(fm, key, now, forwarders, Limit(limits, |fm.jobQueue|, fm.capacity), fm.capacity - |fm.jobQueue|);
    assert WithMarkers(fm.pending, JobsFor(key, session, [], fm.nextMarker)) == fm.pending &&
           fm.jobQueue + JobsFor(key, session, [], fm.nextMarker) == fm.jobQueue by {
      NoJobs(fm.pending, key, session, fm.nextMarker);
    }
    if fm.stopping || |forwarders| == 0 {
      NoForwarders(SnapshotOf(fm, key, now), Limit(limits, |fm.jobQueue|, fm.capacity), fm.capacity - |fm.jobQueue|);
      return;
    }
    var limit := Limit(limits, |fm.jobQueue|, fm.capacity);
    ghost var snap := SnapshotOf(fm, key, now);
    assert snap.pending == fm.pending && snap.key == key by { SnapshotReads(fm, key, now); }
    ghost var queue, next, room := fm.jobQueue, fm.nextMarker, fm.capacity - |fm.jobQueue|;
    var eligibleNew, eligibleDue := Partition(fm, key, forwarders, now);
    eligibleDue := SortByOverdue(eligibleDue);
    NotPending(snap, forwarders);
    SelectedInTwo(snap, forwarders, limit, room);
    var more;
    queued, more := EnqueueAll(fm, eligibleNew, key, session, limit, [], snap.pending, queue, next);
    ghost var first := Served(Candidates(snap, forwarders, false), Names([]), limit - 0, room - 0);
    assert session !in fm.MainStorage.ended ==> queued == first;
    if !more {
      return;
    }
    queued, more := EnqueueAll(fm, eligibleDue, key, session, limit, queued, snap.pending, queue, next);
  }

  lemma NoJobs(pending: Pending, key: PeerKey, session: SessionId, next: nat)
    ensures JobsFor(key, session, [], next) == [] && WithMarkers(pending, JobsFor(key, session, [], next)) == pending
  {
  }

  lemma SnapshotReads(fm: ForwarderManager, key: PeerKey, now: int)
    ensures SnapshotOf(fm, key, now).pending == fm.pending && SnapshotOf(fm, key, now).key == key
  {
  }

  // The two loops together serve the lineup; a full queue after the first leaves nothing for the second.
  lemma SelectedInTwo(snap: Snapshot, forwarders: seq<string>, limit: int, room: nat)
    ensures var first := Served(Candidates(snap, forwarders, false), Names([]), limit - 0, room - 0);
            var due := SortDue(Candidates(snap, forwarders, true));
            && |first| <= room
            && Selected(snap, forwarders, limit, room) == first + Served(due, Names(first), limit - |first|, room - |first|)
            && (|first| == room ==> Selected(snap, forwarders, limit, room) == first)
  {
    hide Candidates, SortDue, Served, Names;
    var first := Served(Candidates(snap, forwarders, false), {}, limit, room);
    var due := SortDue(Candidates(snap, forwarders, true));
    NamesOfNone();
    ServedAppend(Candidates(snap, forwarders, false), due, {}, limit, room);
    assert {} + Names(first) == Names(first);
    NothingServed(due, Names(first), limit - |first|);
  }

  // The selection from the tables of the manager, in terms of the tables.
  lemma TableSelection(fm: ForwarderManager, key: PeerKey, now: int, forwarders: seq<string>, limit: int, room: nat)
    ensures var queued := Selected(SnapshotOf(fm, key, now), forwarders, limit, room);
            var f := At(fm.MainStorage.forwarderStorage.Entries, key.infoHash);
            && |queued| <= Max(limit, 0)
            && (forall name :: name in Names(queued) ==>
                  && name in forwarders
                  && (name in fm.suspendedForwarders ==> fm.suspendedForwarders[name] < now)
                  && JobKey(key.infoHash, name, key.peerID) !in fm.pending
                  && (name in f ==> f[name].nextAnnounce <= now))
            && (forall name :: name in forwarders && name !in Names(queued) ==>
                  || (name in fm.suspendedForwarders && fm.suspendedForwarders[name] >= now)
                  || JobKey(key.infoHash, name, key.peerID) in fm.pending
                  || (name in f && f[name].nextAnnounce > now)
                  || |queued| == Min(Max(limit, 0), room))
  {
    hide Selected, Names;
    var snap := SnapshotOf(fm, key, now);
    var queued := Selected(snap, forwarders, limit, room);
    var f := At(fm.MainStorage.forwarderStorage.Entries, key.infoHash);
    SelectionSize(snap, forwarders, limit, room);
    forall name | name in Names(queued)
      ensures name in forwarders && (name in fm.suspendedForwarders ==> fm.suspendedForwarders[name] < now)
      ensures JobKey(key.infoHash, name, key.peerID) !in fm.pending && (name in f ==> f[name].nextAnnounce <= now)
    {
      QueuedMayBeAsked(snap, forwarders, limit, room, name);
    }
    forall name | name in forwarders && name !in Names(queued)
      ensures || (name in fm.suspendedForwarders && fm.suspendedForwarders[name] >= now)
              || JobKey(key.infoHash, name, key.peerID) in fm.pending
              || (name in f && f[name].nextAnnounce > now)
              || |queued| == Min(Max(limit, 0), room)
    {
      if !(name in fm.suspendedForwarders && fm.suspendedForwarders[name] >= now) &&
         JobKey(key.infoHash, name, key.peerID) !in fm.pending && !(name in f && f[name].nextAnnounce > now) {
        LeftOutForRoom(snap, forwarders, limit, room, name);
      }
    }
  }

  // From the throttle threshold of the capacity on, at most topN forwarders are queued per announce, below it
  // the configured maximum. topN zero or less switches throttling off.
  lemma LimitByFill(limits: Limits, length: nat, capacity: nat)
    requires length <= capacity && 0 < capacity && 0 < limits.throttleTopN
    ensures length * 100 >= limits.throttleThreshold * capacity ==> Limit(limits, length, capacity) == limits.throttleTopN
    ensures length * 100 < limits.throttleThreshold * capacity ==> Limit(limits, length, capacity) == limits.maxForwarders
  {
    QuotientAtLeast(length * 100, capacity, limits.throttleThreshold);
  }

  lemma LimitUnthrottled(limits: Limits, length: nat, capacity: nat)
    requires limits.throttleTopN <= 0 || (capacity == 0 && 0 < limits.throttleThreshold)
    ensures Limit(limits, length, capacity) == limits.maxForwarders
  {
  }

  lemma QuotientAtLeast(x: nat, d: nat, q: int)
    requires 0 < d
    ensures x / d >= q <==> x >= q * d
  {
    var r := x / d;
    assert r * d <= x < r * d + d;
    if r >= q {
      Scaled(q, r, d);
    } else {
      Scaled(r + 1, q, d);
      assert (r + 1) * d == r * d + d;
    }
  }

  lemma Scaled(a: int, b: int, d: nat)
    requires a <= b
    ensures a * d <= b * d
  {
    assert b * d == a * d + (b - a) * d;
  }

  // Every queued job is an immediate one of this peer and session, with a marker of its own.
  lemma QueuedJobsAre(key: PeerKey, session: SessionId, cs: seq<Candidate>, next: nat, i: nat, j: nat)
    requires i < |cs| && j < |cs|
    ensures var jobs := JobsFor(key, session, cs, next);
            && |jobs| == |cs| && jobs[i].name == cs[i].name && jobs[i].Peer() == key
            && jobs[i].time == ZERO_TIME && jobs[i].marker.session == session && jobs[i].marker.id >= next
            && (i != j ==> jobs[i].marker != jobs[j].marker)
  {
  }

  lemma NoForwarders(snap: Snapshot, limit: int, room: nat)
    ensures Selected(snap, [], limit, room) == []
  {
  }

  lemma NotPending(snap: Snapshot, forwarders: seq<string>)
    ensures forall c :: c in Candidates(snap, forwarders, false) || c in SortDue(Candidates(snap, forwarders, true)) ==>
      KeyFor(snap.key, c.name) !in snap.pending
  {
    LineupIs(snap, forwarders);
    forall c | c in Candidates(snap, forwarders, false) || c in SortDue(Candidates(snap, forwarders, true))
      ensures c in Lineup(snap, forwarders) {}
  }

  // sort.SliceStable over the due forwarders.
  method SortByOverdue(cs: seq<Candidate>) returns (sorted: seq<Candidate>)
    ensures sorted == SortDue(cs)
  {
    sorted := [];
    for k := 0 to |cs|
      invariant sorted == SortDue(cs[..k])
    {
      assert cs[..k + 1][..k] == cs[..k];
      sorted := Insert(sorted, cs[k]);
    }
    assert cs[..|cs|] == cs;
  }
}
