// What a scheduler tick and a cancellation keep of the schedule: nothing lost, nothing doubled, order kept.
module TickModel {
  import opened Types
  import opened StoreModel
  import opened ScheduleModel

  // Positions, in increasing order, of the jobs of one slot that have a given fate.
  ghost function PickIx(js: seq<Job>, fate: Fate, t: int, now: int, ended: set<SessionId>): seq<nat> {
    if js == [] then []
    else
      var rest := PickIx(js[..|js| - 1], fate, t, now, ended);
      if FateOf(js[|js| - 1], t, now, ended) == fate then rest + [|js| - 1] else rest
  }

  ghost predicate Increasing(ix: seq<nat>, bound: nat) {
    && (forall i :: 0 <= i < |ix| ==> ix[i] < bound)
    && (forall i, j :: 0 <= i < j < |ix| ==> ix[i] < ix[j])
  }

  // Pick is an order-preserving filter: it lists exactly the positions with that fate.
  lemma {:induction false} PickIsFilter(js: seq<Job>, fate: Fate, t: int, now: int, ended: set<SessionId>)
    ensures var ix, kept := PickIx(js, fate, t, now, ended), Pick(js, fate, t, now, ended);
            && Increasing(ix, |js|) && |ix| == |kept|
            && (forall i :: 0 <= i < |ix| ==> kept[i] == js[ix[i]] && FateOf(kept[i], t, now, ended) == fate)
            && (forall k :: 0 <= k < |js| && FateOf(js[k], t, now, ended) == fate ==> k in ix)
  {
    if js != [] {
      PickIsFilter(js[..|js| - 1], fate, t, now, ended);
    }
  }

  // Slot and position of every gathered job.
  ghost function GatherIx(sched: Schedule, order: seq<int>, fate: Fate, now: int, ended: set<SessionId>): seq<(int, nat)> {
    if order == [] then []
    else
      var t := order[|order| - 1];
      var ix := PickIx(Slot(sched, t), fate, t, now, ended);
      GatherIx(sched, order[..|order| - 1], fate, now, ended) + seq(|ix|, i requires 0 <= i < |ix| => (t, ix[i]))
  }

  // Every listed position holds the listed job, with that fate.
  ghost predicate Sound(sched: Schedule, order: seq<int>, fate: Fate, now: int, ended: set<SessionId>,
                        jobs: seq<Job>, ix: seq<(int, nat)>) {
    && |ix| == |jobs|
    && (forall i :: 0 <= i < |ix| ==>
          && ix[i].0 in order && ix[i].1 < |Slot(sched, ix[i].0)|
          && jobs[i] == Slot(sched, ix[i].0)[ix[i].1]
          && FateOf(jobs[i], ix[i].0, now, ended) == fate)
  }

  // Every position with that fate is listed.
  ghost predicate Complete(sched: Schedule, order: seq<int>, fate: Fate, now: int, ended: set<SessionId>, ix: seq<(int, nat)>) {
    forall t, k :: t in order && 0 <= k < |Slot(sched, t)| && FateOf(Slot(sched, t)[k], t, now, ended) == fate ==> (t, k) in ix
  }

  ghost predicate Distinct(ix: seq<(int, nat)>) {
    forall i, j :: 0 <= i < j < |ix| ==> ix[i] != ix[j]
  }

  // Whatever the order of the visit, gathering lists every job with that fate exactly once.
  lemma {:induction false} GatherLocates(sched: Schedule, order: seq<int>, fate: Fate, now: int, ended: set<SessionId>)
    requires NoRepeat(order)
    ensures var ix := GatherIx(sched, order, fate, now, ended);
            && Sound(sched, order, fate, now, ended, Gather(sched, order, fate, now, ended), ix)
            && Complete(sched, order, fate, now, ended, ix)
            && Distinct(ix)
  {
    hide Pick, PickIx, FateOf, Sound, Complete, Distinct;
    if order == [] {
      NothingGathered(sched, fate, now, ended);
    } else {
      var t := order[|order| - 1];
      var before := order[..|order| - 1];
      var jobs, ix := Gather(sched, before, fate, now, ended), GatherIx(sched, before, fate, now, ended);
      var px := PickIx(Slot(sched, t), fate, t, now, ended);
      var tail := seq(|px|, i requires 0 <= i < |px| => (t, px[i]));
      GatherLocates(sched, before, fate, now, ended);
      assert order == before + [t];
      TailLocates(sched, t, fate, now, ended, tail);
      AppendSound(sched, before, t, fate, now, ended, jobs, ix, tail);
      AppendComplete(sched, before, t, fate, now, ended, ix, tail);
      SoundWithin(sched, before, fate, now, ended, jobs, ix);
      AppendDistinct(before, t, ix, tail);
    }
  }

  lemma NothingGathered(sched: Schedule, fate: Fate, now: int, ended: set<SessionId>)
    ensures Sound(sched, [], fate, now, ended, [], []) && Complete(sched, [], fate, now, ended, []) && Distinct([])
  {
  }

  lemma TailLocates(sched: Schedule, t: int, fate: Fate, now: int, ended: set<SessionId>, tail: seq<(int, nat)>)
    requires var px := PickIx(Slot(sched, t), fate, t, now, ended);
             |tail| == |px| && forall i :: 0 <= i < |px| ==> tail[i] == (t, px[i])
    ensures Sound(sched, [t], fate, now, ended, Pick(Slot(sched, t), fate, t, now, ended), tail) && Distinct(tail)
  {
    hide Pick, PickIx, FateOf;
    PickIsFilter(Slot(sched, t), fate, t, now, ended);
  }

  lemma SoundWithin(sched: Schedule, order: seq<int>, fate: Fate, now: int, ended: set<SessionId>, jobs: seq<Job>, ix: seq<(int, nat)>)
    requires Sound(sched, order, fate, now, ended, jobs, ix)
    ensures forall i :: 0 <= i < |ix| ==> ix[i].0 in order
  {
  }

  lemma AppendSound(sched: Schedule, before: seq<int>, t: int, fate: Fate, now: int, ended: set<SessionId>,
                    jobs: seq<Job>, ix: seq<(int, nat)>, tail: seq<(int, nat)>)
    requires Sound(sched, before, fate, now, ended, jobs, ix)
    requires Sound(sched, [t], fate, now, ended, Pick(Slot(sched, t), fate, t, now, ended), tail)
    ensures Sound(sched, before + [t], fate, now, ended, jobs + Pick(Slot(sched, t), fate, t, now, ended), ix + tail)
  {
  }

  lemma AppendComplete(sched: Schedule, before: seq<int>, t: int, fate: Fate, now: int, ended: set<SessionId>,
                       ix: seq<(int, nat)>, tail: seq<(int, nat)>)
    requires Complete(sched, before, fate, now, ended, ix)
    requires var px := PickIx(Slot(sched, t), fate, t, now, ended);
             && |tail| == |px| && (forall i :: 0 <= i < |px| ==> tail[i] == (t, px[i]))
    ensures Complete(sched, before + [t], fate, now, ended, ix + tail)
  {
    var px := PickIx(Slot(sched, t), fate, t, now, ended);
    PickIsFilter(Slot(sched, t), fate, t, now, ended);
    forall u, k | u in before + [t] && 0 <= k < |Slot(sched, u)| && FateOf(Slot(sched, u)[k], u, now, ended) == fate
      ensures (u, k) in ix + tail
    {
      if u == t {
        var i :| 0 <= i < |px| && px[i] == k;
        assert tail[i] == (t, k);
      }
    }
  }

  lemma AppendDistinct(before: seq<int>, t: int, ix: seq<(int, nat)>, tail: seq<(int, nat)>)
    requires t !in before && Distinct(ix) && Distinct(tail)
    requires forall i :: 0 <= i < |ix| ==> ix[i].0 in before
    requires forall i :: 0 <= i < |tail| ==> tail[i].0 == t
    ensures Distinct(ix + tail)
  {
  }

  // Everything scheduled, slot after slot.
  function AllJobs(sched: Schedule, order: seq<int>): seq<Job> {
    if order == [] then [] else AllJobs(sched, order[..|order| - 1]) + Slot(sched, order[|order| - 1])
  }

  lemma {:induction false} SlotSplits(js: seq<Job>, t: int, now: int, ended: set<SessionId>)
    ensures multiset(js) ==
            multiset(Pick(js, Cancelled, t, now, ended)) + multiset(Pick(js, Ready, t, now, ended)) +
            multiset(Pick(js, Kept, t, now, ended))
  {
    if js != [] {
      var front, last := js[..|js| - 1], js[|js| - 1];
      SlotSplits(front, t, now, ended);
      assert js == front + [last];
    }
  }

  lemma KeptSlot(sched: Schedule, t: int, now: int, ended: set<SessionId>)
    ensures Slot(KeptSlots(sched, now, ended), t) == Pick(Slot(sched, t), Kept, t, now, ended)
  {
  }

  // One tick splits the scheduled jobs into cancelled, ready and kept ones: none lost, none doubled.
  lemma {:induction false} TickConserves(sched: Schedule, order: seq<int>, now: int, ended: set<SessionId>)
    ensures multiset(AllJobs(sched, order)) ==
            multiset(Gather(sched, order, Cancelled, now, ended)) + multiset(Gather(sched, order, Ready, now, ended)) +
            multiset(AllJobs(KeptSlots(sched, now, ended), order))
  {
    if order != [] {
      var t := order[|order| - 1];
      TickConserves(sched, order[..|order| - 1], now, ended);
      SlotSplits(Slot(sched, t), t, now, ended);
      KeptSlot(sched, t, now, ended);
    }
  }

  // Positions of the jobs a cancellation leaves in one slot.
  ghost function OthersIx(js: seq<Job>, key: PeerKey, session: SessionId): seq<nat> {
    if js == [] then []
    else
      var rest := OthersIx(js[..|js| - 1], key, session);
      if OfSession(js[|js| - 1], key, session) then rest else rest + [|js| - 1]
  }

  lemma {:induction false} OthersIsFilter(js: seq<Job>, key: PeerKey, session: SessionId)
    ensures var ix, kept := OthersIx(js, key, session), Others(js, key, session);
            && Increasing(ix, |js|) && |ix| == |kept|
            && (forall i :: 0 <= i < |ix| ==> kept[i] == js[ix[i]] && !OfSession(kept[i], key, session))
            && (forall k :: 0 <= k < |js| && !OfSession(js[k], key, session) ==> k in ix)
  {
    if js != [] {
      OthersIsFilter(js[..|js| - 1], key, session);
    }
  }

  lemma OtherSlot(sched: Schedule, key: PeerKey, session: SessionId, t: int)
    ensures Slot(CancelScheduled(sched, key, session), t) == Others(Slot(sched, t), key, session)
  {
  }

  // What is left: the jobs of live sessions, in slots still to come.
  ghost predicate LaterOnly(slot: seq<Job>, left: seq<Job>, t: int, now: int, ended: set<SessionId>) {
    forall job :: job in left <==> job in slot && job.marker.session !in ended && t > now
  }

  ghost predicate OnlyLater(sched: Schedule, left: Schedule, now: int, ended: set<SessionId>) {
    forall t :: LaterOnly(Slot(sched, t), Slot(left, t), t, now, ended)
  }

  // What a tick decides, in terms of sessions and times alone: ended sessions are cancelled, of the others those
  // in slots that have come are ready, and those in later slots stay.
  lemma TickSorts(sched: Schedule, order: seq<int>, now: int, ended: set<SessionId>)
    requires Enumerates(order, sched)
    ensures forall job :: job in Gather(sched, order, Cancelled, now, ended) <==>
              job.marker.session in ended && Scheduled(sched, job)
    ensures forall job :: job in Gather(sched, order, Ready, now, ended) <==>
              job.marker.session !in ended && exists t :: t in sched && t <= now && job in sched[t]
    ensures OnlyLater(sched, KeptSlots(sched, now, ended), now, ended)
  {
    hide Gather, KeptSlots, Pick;
    forall job
      ensures job in Gather(sched, order, Cancelled, now, ended) <==> job.marker.session in ended && Scheduled(sched, job)
      ensures job in Gather(sched, order, Ready, now, ended) <==>
              job.marker.session !in ended && exists t :: t in sched && t <= now && job in sched[t]
    {
      GatheredIs(sched, order, Cancelled, now, ended, job);
      GatheredIs(sched, order, Ready, now, ended, job);
    }
    LaterStay(sched, now, ended);
  }

  lemma LaterStay(sched: Schedule, now: int, ended: set<SessionId>)
    ensures OnlyLater(sched, KeptSlots(sched, now, ended), now, ended)
  {
    hide KeptSlots, Pick, LaterOnly;
    forall t ensures LaterOnly(Slot(sched, t), Slot(KeptSlots(sched, now, ended), t), t, now, ended) {
      KeptSlot(sched, t, now, ended);
      PickedLater(Slot(sched, t), t, now, ended);
    }
  }

  lemma PickedLater(slot: seq<Job>, t: int, now: int, ended: set<SessionId>)
    ensures LaterOnly(slot, Pick(slot, Kept, t, now, ended), t, now, ended)
  {
    hide Pick;
    forall job
      ensures job in Pick(slot, Kept, t, now, ended) <==> job in slot && job.marker.session !in ended && t > now
    {
      PickedIs(slot, Kept, t, now, ended, job);
    }
  }

  ghost predicate Scheduled(sched: Schedule, job: Job) {
    exists t :: t in sched && job in sched[t]
  }

  lemma PickedIs(js: seq<Job>, fate: Fate, t: int, now: int, ended: set<SessionId>, job: Job)
    ensures job in Pick(js, fate, t, now, ended) <==> job in js && FateOf(job, t, now, ended) == fate
  {
    hide Pick, FateOf;
    PickIsFilter(js, fate, t, now, ended);
    var ix, kept := PickIx(js, fate, t, now, ended), Pick(js, fate, t, now, ended);
    if job in js && FateOf(job, t, now, ended) == fate {
      var k :| 0 <= k < |js| && js[k] == job;
      var i :| 0 <= i < |ix| && ix[i] == k;
      assert kept[i] == job;
    }
  }

  lemma GatheredIs(sched: Schedule, order: seq<int>, fate: Fate, now: int, ended: set<SessionId>, job: Job)
    requires Enumerates(order, sched)
    ensures job in Gather(sched, order, fate, now, ended) <==>
            exists t :: t in sched && job in sched[t] && FateOf(job, t, now, ended) == fate
  {
    hide Gather, FateOf;
    var jobs, ix := Gather(sched, order, fate, now, ended), GatherIx(sched, order, fate, now, ended);
    GatherLocates(sched, order, fate, now, ended);
    if job in jobs {
      var i :| 0 <= i < |jobs| && jobs[i] == job;
      assert job in sched[ix[i].0];
    }
    if t :| t in sched && job in sched[t] && FateOf(job, t, now, ended) == fate {
      var k :| 0 <= k < |sched[t]| && sched[t][k] == job;
      assert (t, k) in ix;
      var i :| 0 <= i < |ix| && ix[i] == (t, k);
      assert jobs[i] == job;
    }
  }

  // After cancelPendingJobs the schedule holds no job of that peer and session, and every other one as before.
  lemma CancelSorts(sched: Schedule, key: PeerKey, session: SessionId, t: int, job: Job)
    ensures job in Slot(CancelScheduled(sched, key, session), t) <==>
            job in Slot(sched, t) &&
            !(job.infoHash == key.infoHash && job.peerID == key.peerID && job.marker.session == session)
  {
    hide Others, CancelScheduled;
    OtherSlot(sched, key, session, t);
    var js := Slot(sched, t);
    OthersIsFilter(js, key, session);
    var ix, kept := OthersIx(js, key, session), Others(js, key, session);
    if job in js && !OfSession(job, key, session) {
      var k :| 0 <= k < |js| && js[k] == job;
      var i :| 0 <= i < |ix| && ix[i] == k;
      assert kept[i] == job;
    }
  }

  // And the marker map no marker of a named forwarder for them, and every other one as before.
  lemma CancelledMarkers(pending: Pending, key: PeerKey, session: SessionId, k: JobKey)
    ensures var pending' := CancelMarkers(pending, key, session);
            && (k in pending' ==> k in pending && pending'[k] == pending[k])
            && (k in pending && k !in pending' ==>
                  k.infoHash == key.infoHash && k.peerID == key.peerID && pending[k].session == session)
            && (k in pending' && k.infoHash == key.infoHash && k.peerID == key.peerID && pending[k].session == session ==>
                  k.name == "")
  {
  }
}
