// How one job moving between two places keeps the invariants about places and markers.
module LifecycleMoves {
  import opened Types
  import opened StoreModel
  import opened ScheduleModel
  import opened Lifecycle
  import opened LifecycleInvariant

  // The first job of `src` (if any) left it, and `job` joined the end of `dst` (if any).
  ghost predicate Moved(s: State, s': State, src: Option<Holder>, dst: Option<Holder>, job: Job) {
    && (src.Some? ==> Held(s, src.value) != [] && src != dst)
    && (src.Some? && dst.Some? ==> SameJob(job, Held(s, src.value)[0]))
    && (src.None? && dst.Some? ==> job.marker.id >= s.nextMarker)
    && forall h :: Held(s', h) ==
                   if src == Some(h) then Held(s, h)[1..] else if dst == Some(h) then Held(s, h) + [job] else Held(s, h)
  }

  // The same job up to its times.
  predicate SameJob(a: Job, b: Job) {
    a.Key() == b.Key() && a.marker == b.marker
  }

  // Where the job at (h, i) of the later state was before; None for a new job.
  ghost function Origin(s: State, src: Option<Holder>, dst: Option<Holder>, h: Holder, i: nat): Option<(Holder, nat)> {
    if src == Some(h) then Some((h, i + 1))
    else if dst == Some(h) && i == |Held(s, h)| then (if src.Some? then Some((src.value, 0)) else None)
    else Some((h, i))
  }

  lemma OriginIsJob(s: State, s': State, src: Option<Holder>, dst: Option<Holder>, job: Job, h: Holder, i: nat)
    requires Moved(s, s', src, dst, job) && i < |Held(s', h)|
    ensures var o := Origin(s, src, dst, h, i);
            if o.Some? then o.value.1 < |Held(s, o.value.0)| && SameJob(Held(s', h)[i], Held(s, o.value.0)[o.value.1])
            else Held(s', h)[i] == job && dst == Some(h)
  {
  }

  // Two places with the same marker have the same origin.
  lemma MovedPair(s: State, s': State, src: Option<Holder>, dst: Option<Holder>, job: Job, h: Holder, i: nat, g: Holder, j: nat)
    requires Moved(s, s', src, dst, job) && OnePlace(s) && JobsWellFormed(s)
    requires i < |Held(s', h)| && j < |Held(s', g)| && Held(s', h)[i].marker.id == Held(s', g)[j].marker.id
    ensures h == g && i == j
  {
    hide OnePlace, JobsWellFormed, Held;
    OriginIsJob(s, s', src, dst, job, h, i);
    OriginIsJob(s, s', src, dst, job, g, j);
    var o, q := Origin(s, src, dst, h, i), Origin(s, src, dst, g, j);
    if o.Some? {
      IdInUse(s, o.value.0, o.value.1);
    }
    if q.Some? {
      IdInUse(s, q.value.0, q.value.1);
    }
    if o.Some? && q.Some? {
      SamePlace(s, o.value.0, o.value.1, q.value.0, q.value.1);
    }
  }

  lemma IdInUse(s: State, h: Holder, i: nat)
    requires JobsWellFormed(s) && i < |Held(s, h)|
    ensures Held(s, h)[i].marker.id < s.nextMarker
  {
    assert WellFormed(s.store.issued, s.nextMarker, Held(s, h)[i]);
  }

  lemma SamePlace(s: State, h: Holder, i: nat, g: Holder, j: nat)
    requires OnePlace(s) && i < |Held(s, h)| && j < |Held(s, g)| && Held(s, h)[i].marker.id == Held(s, g)[j].marker.id
    ensures h == g && i == j
  {
  }

  lemma MovedOnePlace(s: State, s': State, src: Option<Holder>, dst: Option<Holder>, job: Job)
    requires Moved(s, s', src, dst, job) && OnePlace(s) && JobsWellFormed(s)
    ensures OnePlace(s')
  {
    hide Moved, JobsWellFormed, Held;
    forall h, i, g, j |
      0 <= i < |Held(s', h)| && 0 <= j < |Held(s', g)| && Held(s', h)[i].marker.id == Held(s', g)[j].marker.id
      ensures h == g && i == j
    {
      MovedPair(s, s', src, dst, job, h, i, g, j);
    }
  }

  // Sessions, marker numbers and the record of deferrals only grow.
  ghost predicate Later(s: State, s': State) {
    Grows(s.store, s'.store) && s.nextMarker <= s'.nextMarker && (s.unnamedDeferred ==> s'.unnamedDeferred)
  }

  lemma MovedWellFormed(s: State, s': State, src: Option<Holder>, dst: Option<Holder>, job: Job)
    requires Moved(s, s', src, dst, job) && JobsWellFormed(s) && Later(s, s')
    requires dst.Some? ==> WellFormed(s'.store.issued, s'.nextMarker, job)
    ensures JobsWellFormed(s')
  {
    forall h, i | 0 <= i < |Held(s', h)| ensures WellFormed(s'.store.issued, s'.nextMarker, Held(s', h)[i]) {
      OriginIsJob(s, s', src, dst, job, h, i);
      var o := Origin(s, src, dst, h, i);
      if o.Some? && !(dst == Some(h) && i == |Held(s, h)|) {
        assert Held(s', h)[i] == Held(s, o.value.0)[o.value.1];
        assert WellFormed(s.store.issued, s.nextMarker, Held(s, o.value.0)[o.value.1]);
      }
    }
  }

  lemma MovedHolder(s: State, s': State, src: Option<Holder>, dst: Option<Holder>, job: Job, key: JobKey, marker: Marker)
    requires Moved(s, s', src, dst, job) && HasHolder(s, key, marker)
    requires src.Some? && dst.None? ==> !(Held(s, src.value)[0].Key() == key && Held(s, src.value)[0].marker == marker)
    ensures HasHolder(s', key, marker)
  {
    var h, i :| 0 <= i < |Held(s, h)| && Held(s, h)[i].Key() == key && Held(s, h)[i].marker == marker;
    if src == Some(h) {
      if i == 0 {
        assert Held(s', dst.value)[|Held(s, dst.value)|] == job;
      } else {
        assert Held(s', h)[i - 1] == Held(s, h)[i];
      }
    } else {
      assert Held(s', h)[i] == Held(s, h)[i];
    }
  }

  // Markers untouched: every marker keeps its holder, unless the job that left held it.
  lemma MovedNoLeak(s: State, s': State, src: Option<Holder>, dst: Option<Holder>, job: Job)
    requires Moved(s, s', src, dst, job) && NoLeak(s) && Later(s, s')
    requires forall key :: key in s'.pending ==> key in s.pending && s'.pending[key] == s.pending[key]
    requires src.Some? && dst.None? ==>
      var left := Held(s, src.value)[0]; left.Key() in s'.pending ==> s'.pending[left.Key()] != left.marker
    ensures NoLeak(s')
  {
    forall key | key in s'.pending && Tracked(s', key) ensures HasHolder(s', key, s'.pending[key]) {
      MovedHolder(s, s', src, dst, job, key, s.pending[key]);
    }
  }

  // A job still claims after the move only if it claimed before.
  ghost predicate ClaimsKept(s: State, s': State, src: Option<Holder>, dst: Option<Holder>) {
    && (forall h :: Some(h) != dst && Held(s', h) != [] && Claims(s', h) ==> Claims(s, h))
    && (src.Some? && dst.Some? && Claims(s', dst.value) ==> Claims(s, src.value) && (Held(s, dst.value) == [] || Claims(s, dst.value)))
  }

  // Markers either untouched, or only the marker of the job that left removed.
  lemma MovedOwnership(s: State, s': State, src: Option<Holder>, dst: Option<Holder>, job: Job)
    requires Moved(s, s', src, dst, job) && OnePlace(s) && Ownership(s) && Later(s, s')
    requires src.Some? || dst.None?
    requires ClaimsKept(s, s', src, dst)
    requires s'.pending == s.pending || (src.Some? && dst.None? && s'.pending == FinishJob(s.pending, Held(s, src.value)[0]))
    ensures Ownership(s')
  {
    forall h, i | 0 <= i < |Held(s', h)| && Claims(s', h) && !Ended(s', Held(s', h)[i])
      ensures Owns(s', Held(s', h)[i])
    {
      OriginIsJob(s, s', src, dst, job, h, i);
      var o := Origin(s, src, dst, h, i).value;
      assert Claims(s, o.0);
      assert Owns(s, Held(s, o.0)[o.1]);
      if s'.pending != s.pending {
        assert o != (src.value, 0);
        assert Held(s, o.0)[o.1].marker.id != Held(s, src.value)[0].marker.id;
      }
    }
  }

  // A step that moves at most one job and at most removes the marker of a job that leaves.
  lemma MoveKeepsPlaces(s: State, s': State, src: Option<Holder>, dst: Option<Holder>, job: Job)
    requires Placed(s) && Later(s, s') && (MarkersKept(s') ==> MarkersKept(s))
    requires Moved(s, s', src, dst, job) && ClaimsKept(s, s', src, dst)
    requires dst.Some? ==> src.Some? && WellFormed(s'.store.issued, s'.nextMarker, job)
    requires if src.Some? && dst.None? then s'.pending == FinishJob(s.pending, Held(s, src.value)[0]) else s'.pending == s.pending
    ensures Placed(s')
  {
    MovedOnePlace(s, s', src, dst, job);
    MovedWellFormed(s, s', src, dst, job);
    MovedNoLeak(s, s', src, dst, job);
    if MarkersKept(s') {
      MovedOwnership(s, s', src, dst, job);
    }
  }
}
