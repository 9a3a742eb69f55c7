// queueEligibleAnnounces: which forwarders one announce is queued for.
module Selection {
  import opened Types
  import opened CacheModel
  import opened StoreModel
  import opened ScheduleModel
  import opened JobKeys
  import opened ForwarderQueue

  // One eligibleForwarder. `order` is the position after the shuffle.
  datatype Candidate = Candidate(name: string, order: nat, overdue: int, hasEntry: bool)

  // What one call reads: the tables and the clock at the time of the call, for one peer.
  datatype Snapshot = Snapshot(key: PeerKey, pending: Pending, suspended: map<string, int>, cache: Cache, now: int)
  {
    predicate IsSuspended(name: string) {
      name in suspended && now <= suspended[name]
    }

    predicate IsPending(name: string) {
      JobKey(key.infoHash, name, key.peerID) in pending
    }

    predicate HasEntry(name: string) {
      name in At(cache, key.infoHash)
    }

    predicate Eligible(name: string) {
      && !IsSuspended(name) && !IsPending(name)
      && (HasEntry(name) ==> EntryAt(cache, key.infoHash, name).nextAnnounce <= now)
    }

    // How long a contacted forwarder has been due; an entry without a next announce counts as just due.
    function Overdue(name: string): int {
      var next := EntryAt(cache, key.infoHash, name).nextAnnounce;
      if HasEntry(name) && next != ZERO_TIME then Max(0, now - next) else 0
    }

    function Rank(name: string, order: nat): Candidate {
      Candidate(name, order, Overdue(name), HasEntry(name))
    }
  }

  // The eligible forwarders of the shuffled list that were contacted before (`hasEntry`), or never.
  function Candidates(snap: Snapshot, names: seq<string>, hasEntry: bool): seq<Candidate> {
    if names == [] then []
    else
      var front, n := names[..|names| - 1], |names| - 1;
      var rest := Candidates(snap, front, hasEntry);
      if snap.Eligible(names[n]) && snap.HasEntry(names[n]) == hasEntry then rest + [snap.Rank(names[n], n)] else rest
  }

  // The comparison passed to sort.SliceStable.
  predicate Before(a: Candidate, b: Candidate) {
    a.overdue > b.overdue || (a.overdue == b.overdue && a.order < b.order)
  }

  predicate Sorted(cs: seq<Candidate>) {
    forall i, j :: 0 <= i < j < |cs| ==> !Before(cs[j], cs[i])
  }

  // A never contacted forwarder is served before a due one, and a due one before a less overdue one.
  predicate Preferred(a: Candidate, b: Candidate) {
    b.hasEntry && (!a.hasEntry || a.overdue > b.overdue)
  }

  predicate Ranked(cs: seq<Candidate>) {
    forall i, j :: 0 <= i < j < |cs| ==> !Preferred(cs[j], cs[i])
  }

  // The enqueue loops: serve in order, skip names already pending, stop at the limit or at a full queue.
  function Served(cs: seq<Candidate>, taken: set<string>, left: int, room: nat): seq<Candidate> {
    if cs == [] || left <= 0 then []
    else if cs[0].name in taken then Served(cs[1..], taken, left, room)
    else if room == 0 then []
    else [cs[0]] + Served(cs[1..], taken + {cs[0].name}, left - 1, room - 1)
  }

  function Names(cs: seq<Candidate>): set<string> {
    set i | 0 <= i < |cs| :: cs[i].name
  }

  lemma NamesSplit(cs: seq<Candidate>)
    requires cs != []
    ensures Names(cs) == {cs[0].name} + Names(cs[1..])
  {
    forall name | name in Names(cs) ensures name in {cs[0].name} + Names(cs[1..]) {
      var i :| 0 <= i < |cs| && cs[i].name == name;
      if i > 0 {
        assert cs[1..][i - 1].name == name;
      }
    }
    forall name | name in Names(cs[1..]) ensures name in Names(cs) {
      var i :| 0 <= i < |cs[1..]| && cs[1..][i].name == name;
      assert cs[i + 1].name == name;
    }
  }

  lemma NamesOfNone()
    ensures Names([]) == {}
  {
  }

  lemma CountOne(name: string, names: set<string>, rest: set<string>, taken: set<string>)
    requires names == {name} + rest && name !in taken
    ensures |names - taken| == 1 + |rest - (taken + {name})|
  {
    assert names - taken == {name} + (rest - (taken + {name}));
  }

  // Exactly as many are served as limit, free capacity and distinct candidates allow.
  lemma {:induction false} ServedCount(cs: seq<Candidate>, taken: set<string>, left: int, room: nat)
    ensures var out := Served(cs, taken, left, room);
            && |out| == Min(Max(left, 0), Min(room, |Names(cs) - taken|))
            && Names(out) <= Names(cs) - taken
            && |Names(out)| == |out|
    decreases |cs|
  {
    hide Names;
    NamesOfNone();
    if cs != [] && left > 0 {
      NamesSplit(cs);
      var name := cs[0].name;
      if name in taken {
        ServedCount(cs[1..], taken, left, room);
        assert Names(cs) - taken == Names(cs[1..]) - taken;
      } else {
        CountOne(name, Names(cs), Names(cs[1..]), taken);
        if room > 0 {
          var out := Served(cs, taken, left, room);
          ServedCount(cs[1..], taken + {name}, left - 1, room - 1);
          NamesSplit(out);
          assert out[1..] == Served(cs[1..], taken + {name}, left - 1, room - 1);
        }
      }
    }
  }

  // Nobody left out is preferred to anybody served.
  lemma {:induction false} ServedOptimal(cs: seq<Candidate>, taken: set<string>, left: int, room: nat, q: Candidate, c: Candidate)
    requires Ranked(cs) && q in Served(cs, taken, left, room)
    requires c in cs && c.name !in taken && c.name !in Names(Served(cs, taken, left, room))
    ensures !Preferred(c, q)
    ensures q in cs
    decreases |cs|
  {
    var out := Served(cs, taken, left, room);
    if cs[0].name in taken {
      ServedOptimal(cs[1..], taken, left, room, q, c);
    } else {
      var rest := Served(cs[1..], taken + {cs[0].name}, left - 1, room - 1);
      NamesSplit(out);
      assert out[1..] == rest;
      var k :| 0 <= k < |cs| && cs[k] == c;
      assert k > 0;
      if q in rest {
        assert cs[1..][k - 1] == c;
        ServedOptimal(cs[1..], taken + {cs[0].name}, left - 1, room - 1, q, c);
      }
    }
  }

  lemma {:induction false} ServedFrom(cs: seq<Candidate>, taken: set<string>, left: int, room: nat)
    ensures forall q :: q in Served(cs, taken, left, room) ==> q in cs
    decreases |cs|
  {
    if cs != [] && left > 0 {
      if cs[0].name in taken {
        ServedFrom(cs[1..], taken, left, room);
      } else if room > 0 {
        ServedFrom(cs[1..], taken + {cs[0].name}, left - 1, room - 1);
      }
    }
  }

  // Every candidate is an eligible forwarder of its group at its position, and every such forwarder is one.
  lemma {:induction false} CandidatesAre(snap: Snapshot, names: seq<string>, hasEntry: bool)
    ensures var cs := Candidates(snap, names, hasEntry);
            && (forall c :: c in cs ==>
                  c.order < |names| && c == snap.Rank(names[c.order], c.order) &&
                  snap.Eligible(c.name) && c.hasEntry == hasEntry)
            && (forall k :: 0 <= k < |names| && snap.Eligible(names[k]) && snap.HasEntry(names[k]) == hasEntry ==>
                  snap.Rank(names[k], k) in cs)
            && (forall i, j :: 0 <= i < j < |cs| ==> cs[i].order < cs[j].order)
  {
    hide Snapshot.Overdue, Snapshot.HasEntry, Snapshot.Eligible;
    if names != [] {
      CandidatesAre(snap, names[..|names| - 1], hasEntry);
    }
  }

  function Insert(cs: seq<Candidate>, c: Candidate): seq<Candidate> {
    if cs == [] || !Before(c, cs[|cs| - 1]) then cs + [c]
    else Insert(cs[..|cs| - 1], c) + [cs[|cs| - 1]]
  }

  function SortDue(cs: seq<Candidate>): seq<Candidate> {
    if cs == [] then [] else Insert(SortDue(cs[..|cs| - 1]), cs[|cs| - 1])
  }

  lemma AppendLast(cs: seq<Candidate>, c: Candidate)
    requires Sorted(cs) && forall i :: 0 <= i < |cs| ==> !Before(c, cs[i])
    ensures Sorted(cs + [c])
  {
    hide Before;
  }

  lemma BeforeIsTotal(a: Candidate, b: Candidate, c: Candidate)
    requires !Before(b, a) && !Before(c, b)
    ensures !Before(c, a)
  {
  }

  lemma {:induction false} InsertMembers(cs: seq<Candidate>, c: Candidate)
    ensures multiset(Insert(cs, c)) == multiset(cs) + multiset{c}
    ensures forall x :: x in Insert(cs, c) ==> x == c || x in cs
  {
    hide Before;
    if cs != [] {
      assert cs == cs[..|cs| - 1] + [cs[|cs| - 1]];
      InsertMembers(cs[..|cs| - 1], c);
    }
  }

  lemma {:induction false} InsertSorts(cs: seq<Candidate>, c: Candidate)
    requires Sorted(cs)
    ensures Sorted(Insert(cs, c))
  {
    hide Before;
    if cs == [] {
    } else {
      var front, last := cs[..|cs| - 1], cs[|cs| - 1];
      if Before(c, last) {
        assert !Before(last, c) by { BeforeIsStrict(c, last); }
        InsertSorts(front, c);
        InsertMembers(front, c);
        var out := Insert(front, c);
        forall i | 0 <= i < |out| ensures !Before(last, out[i]) {
          assert out[i] in out;
        }
        AppendLast(out, last);
      } else {
        forall i | 0 <= i < |cs| ensures !Before(c, cs[i]) {
          if i < |cs| - 1 {
            BeforeIsTotal(cs[i], last, c);
          }
        }
        AppendLast(cs, c);
      }
    }
  }

  lemma BeforeIsStrict(a: Candidate, b: Candidate)
    requires Before(a, b)
    ensures !Before(b, a)
  {
  }

  lemma {:induction false} SortDueSorts(cs: seq<Candidate>)
    ensures Sorted(SortDue(cs)) && multiset(SortDue(cs)) == multiset(cs)
  {
    if cs != [] {
      SortDueSorts(cs[..|cs| - 1]);
      InsertSorts(SortDue(cs[..|cs| - 1]), cs[|cs| - 1]);
      InsertMembers(SortDue(cs[..|cs| - 1]), cs[|cs| - 1]);
      assert cs == cs[..|cs| - 1] + [cs[|cs| - 1]];
    }
  }

  lemma LastAgrees(a: seq<Candidate>, b: seq<Candidate>)
    requires a != [] && b != [] && Sorted(a) && Sorted(b)
    requires a[|a| - 1] in b && b[|b| - 1] in a
    requires forall x, y :: x in a && y in a && x.order == y.order ==> x == y
    ensures a[|a| - 1] == b[|b| - 1]
  {
    var x, y := a[|a| - 1], b[|b| - 1];
    var i :| 0 <= i < |b| && b[i] == x;
    var j :| 0 <= j < |a| && a[j] == y;
    assert x in a && y in a;
  }

  lemma WithoutLast(a: seq<Candidate>)
    requires a != []
    ensures multiset(a[..|a| - 1]) == multiset(a) - multiset{a[|a| - 1]}
    ensures a == a[..|a| - 1] + [a[|a| - 1]]
  {
    assert a == a[..|a| - 1] + [a[|a| - 1]];
  }

  lemma SameLength(a: seq<Candidate>, b: seq<Candidate>)
    requires multiset(a) == multiset(b)
    ensures |a| == |b|
  {
    assert |multiset(a)| == |a| && |multiset(b)| == |b|;
  }

  // Shuffled positions differ, so the comparison leaves the sorting algorithm no choice.
  lemma {:induction false} SortIsDetermined(a: seq<Candidate>, b: seq<Candidate>)
    requires multiset(a) == multiset(b) && Sorted(a) && Sorted(b)
    requires forall x, y :: x in a && y in a && x.order == y.order ==> x == y
    ensures a == b
    decreases |a|
  {
    hide Before;
    SameLength(a, b);
    if a != [] {
      SameMembers(a, b);
      LastAgrees(a, b);
      var x := a[|a| - 1];
      WithoutLast(a);
      WithoutLast(b);
      SortIsDetermined(a[..|a| - 1], b[..|b| - 1]);
    }
  }

  // The list the enqueue loops walk: new forwarders first, then the due ones, most overdue first.
  function Lineup(snap: Snapshot, names: seq<string>): seq<Candidate> {
    Candidates(snap, names, false) + SortDue(Candidates(snap, names, true))
  }

  lemma LineupIs(snap: Snapshot, names: seq<string>)
    ensures var cs := Lineup(snap, names);
            && Ranked(cs)
            && (forall c :: c in cs ==> c.order < |names| && snap.Eligible(c.name) && c == snap.Rank(names[c.order], c.order))
            && (forall k :: 0 <= k < |names| && snap.Eligible(names[k]) ==> snap.Rank(names[k], k) in cs)
  {
    var unseen, due := Candidates(snap, names, false), Candidates(snap, names, true);
    CandidatesAre(snap, names, false);
    CandidatesAre(snap, names, true);
    SortDueSorts(due);
    SameMembers(SortDue(due), due);
    LineupRanked(unseen, SortDue(due));
  }

  lemma SameMembers(a: seq<Candidate>, b: seq<Candidate>)
    requires multiset(a) == multiset(b)
    ensures forall c :: c in a <==> c in b
  {
    forall c ensures c in a <==> c in b {
      assert c in a <==> c in multiset(a);
      assert c in b <==> c in multiset(b);
    }
  }

  lemma LineupRanked(unseen: seq<Candidate>, due: seq<Candidate>)
    requires Sorted(due) && (forall c :: c in unseen ==> !c.hasEntry) && (forall c :: c in due ==> c.hasEntry)
    ensures Ranked(unseen + due)
  {
    var cs := unseen + due;
    forall i, j | 0 <= i < j < |cs| ensures !Preferred(cs[j], cs[i]) {
      if i >= |unseen| {
        assert cs[i] == due[i - |unseen|] && cs[j] == due[j - |unseen|];
      }
    }
  }

  function EligibleNames(snap: Snapshot, names: seq<string>): set<string> {
    set i | 0 <= i < |names| && snap.Eligible(names[i]) :: names[i]
  }

  // What a call queues, for a live session.
  function Selected(snap: Snapshot, names: seq<string>, limit: int, room: nat): seq<Candidate> {
    Served(Lineup(snap, names), {}, limit, room)
  }

  lemma LineupNames(snap: Snapshot, names: seq<string>)
    ensures Names(Lineup(snap, names)) == EligibleNames(snap, names)
  {
    var cs := Lineup(snap, names);
    LineupIs(snap, names);
    forall name | name in EligibleNames(snap, names) ensures name in Names(cs) {
      var k :| 0 <= k < |names| && snap.Eligible(names[k]) && names[k] == name;
      var i :| 0 <= i < |cs| && cs[i] == snap.Rank(names[k], k);
      assert cs[i].name == name;
    }
    forall name | name in Names(cs) ensures name in EligibleNames(snap, names) {
      var i :| 0 <= i < |cs| && cs[i].name == name;
      assert cs[i] in cs && names[cs[i].order] == name;
    }
  }

  // Whatever the shuffle: distinct eligible forwarders, and as many of them as limit and free capacity allow.
  lemma SelectionSize(snap: Snapshot, names: seq<string>, limit: int, room: nat)
    ensures var chosen := Names(Selected(snap, names, limit, room));
            && chosen <= EligibleNames(snap, names)
            && |chosen| == |Selected(snap, names, limit, room)|
            && |chosen| == Min(Max(limit, 0), Min(room, |EligibleNames(snap, names)|))
  {
    LineupNames(snap, names);
    ServedCount(Lineup(snap, names), {}, limit, room);
    assert EligibleNames(snap, names) - {} == EligibleNames(snap, names);
  }

  // Whatever the shuffle: a due forwarder is queued only if every eligible new one is, and no forwarder
  // left out is more overdue than a queued one.
  lemma SelectionOptimal(snap: Snapshot, names: seq<string>, limit: int, room: nat, q: string, c: string)
    requires q in Names(Selected(snap, names, limit, room)) && snap.HasEntry(q)
    requires c in EligibleNames(snap, names) && c !in Names(Selected(snap, names, limit, room))
    ensures snap.HasEntry(c) && snap.Overdue(c) <= snap.Overdue(q)
  {
    var cs := Lineup(snap, names);
    var out := Selected(snap, names, limit, room);
    LineupIs(snap, names);
    ServedFrom(cs, {}, limit, room);
    var i :| 0 <= i < |out| && out[i].name == q;
    var k :| 0 <= k < |names| && snap.Eligible(names[k]) && names[k] == c;
    assert out[i] in cs;
    ServedOptimal(cs, {}, limit, room, out[i], snap.Rank(names[k], k));
  }

  // On the tables themselves

  // A forwarder that is queued is on the list, not suspended, has no job pending for this peer, and was never
  // contacted for the hash or has no cooldown left.
  lemma QueuedMayBeAsked(snap: Snapshot, names: seq<string>, limit: int, room: nat, name: string)
    requires name in Names(Selected(snap, names, limit, room))
    ensures name in names
    ensures name in snap.suspended ==> snap.suspended[name] < snap.now
    ensures JobKey(snap.key.infoHash, name, snap.key.peerID) !in snap.pending
    ensures name in At(snap.cache, snap.key.infoHash) ==> At(snap.cache, snap.key.infoHash)[name].nextAnnounce <= snap.now
  {
    SelectionSize(snap, names, limit, room);
    assert name in EligibleNames(snap, names);
  }

  // A forwarder that could have been queued and was not found the limit reached or the queue full.
  lemma LeftOutForRoom(snap: Snapshot, names: seq<string>, limit: int, room: nat, name: string)
    requires name in names && name !in Names(Selected(snap, names, limit, room))
    requires name in snap.suspended ==> snap.suspended[name] < snap.now
    requires JobKey(snap.key.infoHash, name, snap.key.peerID) !in snap.pending
    requires name in At(snap.cache, snap.key.infoHash) ==> At(snap.cache, snap.key.infoHash)[name].nextAnnounce <= snap.now
    ensures |Selected(snap, names, limit, room)| == Min(Max(limit, 0), room)
  {
    var chosen := Names(Selected(snap, names, limit, room));
    SelectionSize(snap, names, limit, room);
    var i :| 0 <= i < |names| && names[i] == name;
    assert name in EligibleNames(snap, names);
    Smaller(chosen, EligibleNames(snap, names), name);
  }

  lemma Smaller(part: set<string>, whole: set<string>, name: string)
    requires part <= whole && name in whole && name !in part
    ensures |part| < |whole|
  {
    assert whole == part + (whole - part);
  }

  // Since when an entry has been due; one without a next announce is due just now.
  function DueSince(e: Entry, now: int): int {
    if e.nextAnnounce == ZERO_TIME then now else e.nextAnnounce
  }

  // A contacted forwarder is queued only after all that were never contacted, and after all that were due earlier.
  lemma LongestDueFirst(snap: Snapshot, names: seq<string>, limit: int, room: nat, q: string, c: string)
    requires q in Names(Selected(snap, names, limit, room)) && q in At(snap.cache, snap.key.infoHash)
    requires c in names && c !in Names(Selected(snap, names, limit, room))
    requires c in snap.suspended ==> snap.suspended[c] < snap.now
    requires JobKey(snap.key.infoHash, c, snap.key.peerID) !in snap.pending
    requires c in At(snap.cache, snap.key.infoHash) ==> At(snap.cache, snap.key.infoHash)[c].nextAnnounce <= snap.now
    ensures var f := At(snap.cache, snap.key.infoHash);
            c in f && DueSince(f[q], snap.now) <= DueSince(f[c], snap.now)
  {
    var i :| 0 <= i < |names| && names[i] == c;
    assert c in EligibleNames(snap, names);
    QueuedMayBeAsked(snap, names, limit, room, q);
    SelectionOptimal(snap, names, limit, room, q, c);
  }
}
