// forwarderStorage.go: the upstream cache, updated in place, and what its readers can observe.
module ForwarderCache {
  import opened Types
  import opened CacheModel

  ghost predicate EnumeratesNames(order: seq<string>, f: Forwarders) {
    && (forall name :: name in order <==> name in f)
    && (forall i, j :: 0 <= i < j < |order| ==> order[i] != order[j])
  }

  // A clock gives the instant at which a reader comes to each forwarder.
  type Clock = string -> int

  // The peers of the unexpired entries, visiting the forwarders in some order.
  function FreshPeers(f: Forwarders, order: seq<string>, at: Clock, maxPeerAge: int): seq<Peer>
    requires forall i :: 0 <= i < |order| ==> order[i] in f
  {
    if order == [] then []
    else
      var name := order[|order| - 1];
      FreshPeers(f, order[..|order| - 1], at, maxPeerAge) + if Expired(f[name], at(name), maxPeerAge) then [] else f[name].peers
  }

  // A possible answer of GetAllPeers: the order of the forwarders is the map's choice.
  ghost predicate Gathers(f: Forwarders, ps: seq<Peer>, at: Clock, maxPeerAge: int) {
    exists order :: EnumeratesNames(order, f) && ps == FreshPeers(f, order, at, maxPeerAge)
  }

  // ShouldAnnounceNow: never contacted, or due.
  predicate Due(c: Cache, h: InfoHash, name: string, now: int) {
    name !in At(c, h) || At(c, h)[name].nextAnnounce == ZERO_TIME || At(c, h)[name].nextAnnounce <= now
  }

  class ForwarderStorage {
    var Entries: Cache
    var maxPeerAge: int

    constructor ()
      ensures Entries == map[] && maxPeerAge == DEFAULT_PEER_AGE
    {
      Entries := map[];
      maxPeerAge := DEFAULT_PEER_AGE;
    }

    method UpdatePeers(h: InfoHash, name: string, peers: seq<Peer>, interval: int, now: int)
      modifies `Entries
      ensures Entries == CacheModel.UpdatePeers(old(Entries), h, name, peers, interval, now)
    {
      if h !in Entries {
        Entries := Entries[h := map[]];
      }
      var entry := Entry(peers, interval, now, now + interval * SECOND);
      Entries := Entries[h := Entries[h][name := entry]];
    }

    method GetAllPeers(h: InfoHash, at: Clock) returns (allPeers: seq<Peer>)
      ensures Gathers(At(Entries, h), allPeers, at, maxPeerAge)
    {
      allPeers := [];
      ghost var order: seq<string> := [];
      if h in Entries {
        var forwarders := Entries[h];
        var todo := forwarders.Keys;
        while todo != {}
          invariant todo <= forwarders.Keys
          invariant forall name :: name in order <==> name in forwarders && name !in todo
          invariant forall i, j :: 0 <= i < j < |order| ==> order[i] != order[j]
          invariant allPeers == FreshPeers(forwarders, order, at, maxPeerAge)
          decreases todo
        {
          var name :| name in todo;
          todo := todo - {name};
          if !Expired(forwarders[name], at(name), maxPeerAge) {
            allPeers := allPeers + forwarders[name].peers;
          }
          ghost var before := order;
          order := order + [name];
          assert order[..|order| - 1] == before;
        }
      }
      assert EnumeratesNames(order, At(Entries, h)) && allPeers == FreshPeers(At(Entries, h), order, at, maxPeerAge);
    }

    // Prune deletes and rewrites entries while it ranges over both maps.
    method Prune(now: int)
      requires NoEmpty(Entries)
      modifies `Entries
      ensures Entries == CacheModel.Prune(old(Entries), now, maxPeerAge)
    {
      hide PrunedForwarders, NoEmpty, PeerAge;
      ghost var was := Entries;
      var todo := Entries.Keys;
      while todo != {}
        invariant todo <= was.Keys
        invariant forall h :: h in Entries <==>
          h in was && (h in todo || PrunedForwarders(was[h], now, maxPeerAge) != map[])
        invariant forall h :: h in Entries ==>
          Entries[h] == if h in todo then was[h] else PrunedForwarders(was[h], now, maxPeerAge)
        decreases todo
      {
        var h :| h in todo;
        todo := todo - {h};
        var forwarders := PruneForwarders(Entries[h], now);
        Entries := Entries[h := forwarders];
        if |forwarders| == 0 {
          Entries := Entries - {h};
        }
      }
    }

    method PruneForwarders(f: Forwarders, now: int) returns (forwarders: Forwarders)
      ensures forwarders == PrunedForwarders(f, now, maxPeerAge)
    {
      forwarders := f;
      var todo := f.Keys;
      while todo != {}
        invariant todo <= f.Keys
        invariant forall name :: name in forwarders <==> name in f && (name in todo || Survives(f[name], now, maxPeerAge))
        invariant forall name :: name in forwarders ==>
          forwarders[name] == if name in todo then f[name] else PrunedEntry(f[name], now, maxPeerAge)
        decreases todo
      {
        var name :| name in todo;
        todo := todo - {name};
        var entry := forwarders[name];
        if Expired(entry, now, maxPeerAge) {
          if entry.nextAnnounce > now {
            forwarders := forwarders[name := entry.(peers := [])];
          } else {
            forwarders := forwarders - {name};
          }
        }
      }
    }

    method DeferAnnounce(h: InfoHash, name: string, until: int) returns (at: int)
      modifies `Entries
      ensures (Entries, at) == CacheModel.DeferAnnounce(old(Entries), h, name, until)
    {
      if h !in Entries {
        Entries := Entries[h := map[]];
      }
      assert Entries[h] == At(old(Entries), h);
      var entry := if name in Entries[h] then Entries[h][name] else ZERO_ENTRY;
      assert entry == EntryAt(old(Entries), h, name);
      if entry.nextAnnounce > until {
        assert Entries == old(Entries)[h := At(old(Entries), h)];
        return entry.nextAnnounce;
      }
      Entries := Entries[h := Entries[h][name := entry.(nextAnnounce := until)]];
      assert Entries == Put(old(Entries), h, name, entry.(nextAnnounce := until));
      return until;
    }

    method ShouldAnnounceNow(h: InfoHash, name: string, now: int) returns (due: bool)
      ensures due == Due(Entries, h, name, now)
      ensures due <==>
        name !in At(Entries, h) || At(Entries, h)[name].nextAnnounce == ZERO_TIME || At(Entries, h)[name].nextAnnounce <= now
    {
      if h !in Entries {
        return true;
      }
      var forwarders := Entries[h];
      if name !in forwarders {
        return true;
      }
      if forwarders[name].nextAnnounce == ZERO_TIME {
        return true;
      }
      return !(forwarders[name].nextAnnounce > now);
    }

    // Whether the forwarder was contacted for the hash, and its next announce (zero if not).
    method GetAnnounceState(h: InfoHash, name: string) returns (hasEntry: bool, nextAnnounce: int)
      ensures hasEntry <==> name in At(Entries, h)
      ensures nextAnnounce == EntryAt(Entries, h, name).nextAnnounce
    {
      if h !in Entries || name !in Entries[h] {
        return false, ZERO_TIME;
      }
      return true, Entries[h][name].nextAnnounce;
    }

    // With no empty inner map, the hash being present means some forwarder answered for it.
    method HasInfoHash(h: InfoHash) returns (has: bool)
      requires NoEmpty(Entries)
      ensures has <==> exists name :: name in At(Entries, h)
    {
      has := h in Entries;
      if has {
        ghost var name :| name in Entries[h].Keys;
        assert name in At(Entries, h);
      }
    }

    method Cleanup(h: InfoHash)
      modifies `Entries
      ensures Entries == CacheModel.Cleanup(old(Entries), h)
    {
      Entries := Entries - {h};
    }
  }

  // Pruning is invisible to later readers

  function Surviving(f: Forwarders, order: seq<string>, now: int, maxPeerAge: int): seq<string>
    requires forall i :: 0 <= i < |order| ==> order[i] in f
  {
    if order == [] then []
    else
      var rest := Surviving(f, order[..|order| - 1], now, maxPeerAge);
      if Survives(f[order[|order| - 1]], now, maxPeerAge) then rest + [order[|order| - 1]] else rest
  }

  lemma {:induction false} SurvivingNames(f: Forwarders, order: seq<string>, now: int, maxPeerAge: int)
    requires forall i :: 0 <= i < |order| ==> order[i] in f
    requires forall i, j :: 0 <= i < j < |order| ==> order[i] != order[j]
    ensures var kept := Surviving(f, order, now, maxPeerAge);
            && (forall name :: name in kept <==> name in order && Survives(f[name], now, maxPeerAge))
            && (forall i, j :: 0 <= i < j < |kept| ==> kept[i] != kept[j])
  {
    if order != [] {
      SurvivingNames(f, order[..|order| - 1], now, maxPeerAge);
      assert order == order[..|order| - 1] + [order[|order| - 1]];
    }
  }

  ghost predicate Later(f: Forwarders, now: int, at: Clock) {
    forall name :: name in f ==> now <= at(name)
  }

  // What a later reader collects in some order is what it collects after pruning in the same order.
  lemma {:induction false} PruneKeepsPeers(f: Forwarders, order: seq<string>, now: int, at: Clock, maxPeerAge: int)
    requires EnumeratesNames(order, f) && Later(f, now, at)
    ensures var f', kept := PrunedForwarders(f, now, maxPeerAge), Surviving(f, order, now, maxPeerAge);
            && EnumeratesNames(kept, f')
            && FreshPeers(f', kept, at, maxPeerAge) == FreshPeers(f, order, at, maxPeerAge)
  {
    SurvivingNames(f, order, now, maxPeerAge);
    PruneKeepsPrefix(f, order, now, at, maxPeerAge);
  }

  lemma {:induction false} PruneKeepsPrefix(f: Forwarders, order: seq<string>, now: int, at: Clock, maxPeerAge: int)
    requires (forall i :: 0 <= i < |order| ==> order[i] in f) && Later(f, now, at)
    ensures var f', kept := PrunedForwarders(f, now, maxPeerAge), Surviving(f, order, now, maxPeerAge);
            && (forall i :: 0 <= i < |kept| ==> kept[i] in f')
            && FreshPeers(f', kept, at, maxPeerAge) == FreshPeers(f, order, at, maxPeerAge)
  {
    if order != [] {
      PruneKeepsPrefix(f, order[..|order| - 1], now, at, maxPeerAge);
      var f', kept := PrunedForwarders(f, now, maxPeerAge), Surviving(f, order, now, maxPeerAge);
      if Survives(f[order[|order| - 1]], now, maxPeerAge) {
        assert kept[..|kept| - 1] == Surviving(f, order[..|order| - 1], now, maxPeerAge);
      }
    }
  }

  // Conversely, every answer possible after pruning was possible without it.
  lemma PruneAddsNoAnswer(f: Forwarders, kept: seq<string>, now: int, at: Clock, maxPeerAge: int)
    requires EnumeratesNames(kept, PrunedForwarders(f, now, maxPeerAge)) && Later(f, now, at)
    ensures exists order :: EnumeratesNames(order, f) &&
              FreshPeers(f, order, at, maxPeerAge) == FreshPeers(PrunedForwarders(f, now, maxPeerAge), kept, at, maxPeerAge)
  {
    hide FreshPeers, Survives, Surviving;
    var gone := set name | name in f && !Survives(f[name], now, maxPeerAge);
    var order := ExtendOrder(f, kept, gone);
    PruneKeepsPeers(f, order, now, at, maxPeerAge);
    SurvivorsFirst(f, kept, order, now, maxPeerAge);
  }

  // Append the names of a set, in any order.
  lemma ExtendOrder(f: Forwarders, kept: seq<string>, gone: set<string>) returns (order: seq<string>)
    requires forall name :: name in kept ==> name !in gone
    requires forall i, j :: 0 <= i < j < |kept| ==> kept[i] != kept[j]
    ensures kept <= order
    ensures forall name :: name in order <==> name in kept || name in gone
    ensures forall i :: |kept| <= i < |order| ==> order[i] in gone
    ensures forall i, j :: 0 <= i < j < |order| ==> order[i] != order[j]
    decreases gone
  {
    order := kept;
    var todo := gone;
    while todo != {}
      invariant todo <= gone && kept <= order
      invariant forall name :: name in order <==> name in kept || (name in gone && name !in todo)
      invariant forall i :: |kept| <= i < |order| ==> order[i] in gone
      invariant forall i, j :: 0 <= i < j < |order| ==> order[i] != order[j]
    {
      var name :| name in todo;
      order, todo := order + [name], todo - {name};
    }
  }

  lemma {:induction false} SurvivorsFirst(f: Forwarders, kept: seq<string>, order: seq<string>, now: int, maxPeerAge: int)
    requires kept <= order && forall i :: 0 <= i < |order| ==> order[i] in f
    requires forall i :: 0 <= i < |kept| ==> Survives(f[kept[i]], now, maxPeerAge)
    requires forall i :: |kept| <= i < |order| ==> !Survives(f[order[i]], now, maxPeerAge)
    ensures Surviving(f, order, now, maxPeerAge) == kept
  {
    if order == [] {
    } else if |kept| == |order| {
      SurvivorsFirst(f, kept[..|kept| - 1], order[..|order| - 1], now, maxPeerAge);
      assert kept == kept[..|kept| - 1] + [kept[|kept| - 1]];
    } else {
      SurvivorsFirst(f, kept, order[..|order| - 1], now, maxPeerAge);
    }
  }

  // Pruning never changes when a forwarder is due again.
  lemma PruneKeepsDue(c: Cache, h: InfoHash, name: string, now: int, t: int, maxPeerAge: int)
    requires now <= t
    ensures Due(CacheModel.Prune(c, now, maxPeerAge), h, name, t) == Due(c, h, name, t)
  {
    if name in At(c, h) && Survives(c[h][name], now, maxPeerAge) {
      assert name in PrunedForwarders(c[h], now, maxPeerAge);
    }
  }

  // A deferral changes no cached peer, never lowers a cooldown, and returns the cooldown it leaves.
  lemma DeferPreserves(c: Cache, h: InfoHash, name: string, until: int, g: InfoHash, other: string)
    requires ZERO_TIME < until
    ensures var (c', at) := CacheModel.DeferAnnounce(c, h, name, until);
            && EntryAt(c', g, other).peers == EntryAt(c, g, other).peers
            && EntryAt(c', g, other).lastUpdate == EntryAt(c, g, other).lastUpdate
            && EntryAt(c', g, other).nextAnnounce >= EntryAt(c, g, other).nextAnnounce
            && at == Max(until, EntryAt(c, h, name).nextAnnounce) == EntryAt(c', h, name).nextAnnounce
            && ((g, other) != (h, name) ==> EntryAt(c', g, other) == EntryAt(c, g, other))
  {
  }

  // What readers see of each change

  // The largest age of a cached peer list: three hours unless configured.
  lemma AgeIs(maxPeerAge: int)
    ensures PeerAge(maxPeerAge) == if maxPeerAge <= 0 then 3 * 60 * MINUTE else maxPeerAge
  {
  }

  // A reader gets the peers of the forwarders that answered less than the maximum age before it came to them.
  lemma {:induction false} AnswerIs(f: Forwarders, order: seq<string>, at: Clock, maxPeerAge: int, p: Peer)
    requires forall i :: 0 <= i < |order| ==> order[i] in f
    ensures p in FreshPeers(f, order, at, maxPeerAge) <==>
            exists i :: 0 <= i < |order| && at(order[i]) - f[order[i]].lastUpdate < PeerAge(maxPeerAge) && p in f[order[i]].peers
  {
    hide PeerAge;
    if order != [] {
      var n := |order| - 1;
      AnswerIs(f, order[..n], at, maxPeerAge, p);
      if i :| 0 <= i < |order| && at(order[i]) - f[order[i]].lastUpdate < PeerAge(maxPeerAge) && p in f[order[i]].peers {
        if i < n {
          assert order[..n][i] == order[i];
        }
      }
    }
  }

  // The whole list of a forwarder, in its order, is part of every answer while it is fresh.
  lemma {:induction false} ListIsPart(f: Forwarders, order: seq<string>, at: Clock, maxPeerAge: int, name: string)
    requires name in order && forall i :: 0 <= i < |order| ==> order[i] in f
    requires at(name) - f[name].lastUpdate < PeerAge(maxPeerAge)
    ensures IsPart(f[name].peers, FreshPeers(f, order, at, maxPeerAge))
  {
    hide PeerAge, IsPart;
    var n := |order| - 1;
    var front := FreshPeers(f, order[..n], at, maxPeerAge);
    if order[n] == name {
      PartOfSum(front, f[name].peers, []);
      assert front + f[name].peers + [] == front + f[name].peers;
    } else {
      assert name in order[..n];
      ListIsPart(f, order[..n], at, maxPeerAge, name);
      PartOfLonger(f[name].peers, front, if Expired(f[order[n]], at(order[n]), maxPeerAge) then [] else f[order[n]].peers);
    }
  }

  ghost predicate IsPart(part: seq<Peer>, whole: seq<Peer>) {
    exists before, after :: whole == before + part + after
  }

  lemma PartOfSum(a: seq<Peer>, part: seq<Peer>, b: seq<Peer>)
    ensures IsPart(part, a + part + b)
  {
  }

  lemma PartOfLonger(part: seq<Peer>, whole: seq<Peer>, more: seq<Peer>)
    requires IsPart(part, whole)
    ensures IsPart(part, whole + more)
  {
    var before, after :| whole == before + part + after;
    assert whole + more == before + part + (after + more);
  }

  // After a result is stored, every answer contains its peers until they expire.
  lemma UpdateIsRead(c: Cache, h: InfoHash, name: string, peers: seq<Peer>, interval: int, now: int,
                     ps: seq<Peer>, at: Clock, maxPeerAge: int)
    requires Gathers(At(CacheModel.UpdatePeers(c, h, name, peers, interval, now), h), ps, at, maxPeerAge)
    requires at(name) < now + PeerAge(maxPeerAge)
    ensures IsPart(peers, ps)
  {
    hide PeerAge, IsPart, FreshPeers;
    var f := At(CacheModel.UpdatePeers(c, h, name, peers, interval, now), h);
    var order :| EnumeratesNames(order, f) && ps == FreshPeers(f, order, at, maxPeerAge);
    assert name in f && f[name].peers == peers && f[name].lastUpdate == now;
    ListIsPart(f, order, at, maxPeerAge, name);
  }

  // The forwarder is due again exactly when its interval has passed.
  lemma UpdateSetsDue(c: Cache, h: InfoHash, name: string, peers: seq<Peer>, interval: int, now: int, t: int)
    requires ZERO_TIME <= now && 0 < interval
    ensures Due(CacheModel.UpdatePeers(c, h, name, peers, interval, now), h, name, t) <==> t >= now + interval * SECOND
  {
  }

  // No other forwarder's entry changes, for this hash or another.
  lemma UpdateIsLocal(c: Cache, h: InfoHash, name: string, peers: seq<Peer>, interval: int, now: int, g: InfoHash, other: string)
    requires (g, other) != (h, name)
    ensures var c' := CacheModel.UpdatePeers(c, h, name, peers, interval, now);
            && (other in At(c', g) <==> other in At(c, g))
            && (other in At(c, g) ==> At(c', g)[other] == At(c, g)[other])
  {
  }

  // Pruning keeps an entry only while its peers are fresh, or without them while its cooldown runs.
  lemma PruneReclaims(c: Cache, now: int, maxPeerAge: int, h: InfoHash, name: string)
    requires name in At(CacheModel.Prune(c, now, maxPeerAge), h)
    ensures var e := At(CacheModel.Prune(c, now, maxPeerAge), h)[name];
            && name in At(c, h) && e == At(c, h)[name].(peers := e.peers)
            && (if now - e.lastUpdate < PeerAge(maxPeerAge) then e.peers == At(c, h)[name].peers
                else e.peers == [] && e.nextAnnounce > now)
  {
  }

  // A disabled forwarder loses its entries, and nobody else does.
  lemma DisableForgets(c: Cache, gone: string, h: InfoHash, name: string)
    ensures var c' := WithoutForwarder(c, gone);
            && (name in At(c', h) <==> name != gone && name in At(c, h))
            && (name in At(c', h) ==> At(c', h)[name] == At(c, h)[name])
  {
    if h in c && name in c[h] && name != gone {
      assert name in c[h] - {gone};
    }
  }

  lemma CleanupIsLocal(c: Cache, h: InfoHash, g: InfoHash)
    ensures var c' := CacheModel.Cleanup(c, h);
            h !in c' && (g != h ==> (g in c' <==> g in c) && At(c', g) == At(c, g))
  {
  }
}
