// storage.go and the locked section of handleStoppedEvent: local peers and their sessions, in place.
module PeerStorage {
  import opened Types
  import opened CacheModel
  import opened StoreModel
  import ForwarderCache

  // Purge restricted to the keys already visited.

  function LeftOf(peers: map<PeerID, Request>, h: InfoHash, now: int, age: int, done: set<PeerKey>): map<PeerID, Request> {
    map p | p in peers && !(Aged(peers[p], now, age) && PeerKey(h, p) in done) :: peers[p]
  }

  function LeftRequests(requests: Requests, now: int, age: int, done: set<PeerKey>): Requests {
    map h | h in requests && LeftOf(requests[h], h, now, age, done) != map[] :: LeftOf(requests[h], h, now, age, done)
  }

  function Emptied(requests: Requests, now: int, age: int, done: set<PeerKey>): set<InfoHash> {
    set h | h in requests && LeftOf(requests[h], h, now, age, done) == map[]
  }

  function Gone(st: Store, now: int, age: int, done: set<PeerKey>): set<PeerKey> {
    set key | key in st.sessions && key in done && AgedKey(st, key, now, age)
  }

  function PurgeSome(st: Store, c: Cache, now: int, age: int, done: set<PeerKey>): (Store, Cache) {
    var gone := Gone(st, now, age, done);
    (st.(requests := LeftRequests(st.requests, now, age, done),
         sessions := st.sessions - gone,
         ended := st.ended + IdsOf(st.sessions, gone)),
     c - Emptied(st.requests, now, age, done))
  }

  lemma PurgeNone(st: Store, c: Cache, now: int, age: int)
    requires Valid(st)
    ensures PurgeSome(st, c, now, age, {}) == (st, c)
  {
    forall h | h in st.requests ensures LeftOf(st.requests[h], h, now, age, {}) == st.requests[h] {}
    assert Emptied(st.requests, now, age, {}) == {};
    assert LeftRequests(st.requests, now, age, {}) == st.requests;
    assert Gone(st, now, age, {}) == {};
    assert c - {} == c && st.sessions - {} == st.sessions && IdsOf(st.sessions, {}) == {} && st.ended + {} == st.ended;
  }

  lemma PurgeSkips(st: Store, c: Cache, now: int, age: int, done: set<PeerKey>, key: PeerKey)
    requires !AgedKey(st, key, now, age)
    ensures PurgeSome(st, c, now, age, done + {key}) == PurgeSome(st, c, now, age, done)
  {
    var more := done + {key};
    forall h | h in st.requests ensures LeftOf(st.requests[h], h, now, age, more) == LeftOf(st.requests[h], h, now, age, done) {}
    assert LeftRequests(st.requests, now, age, more) == LeftRequests(st.requests, now, age, done);
    assert Emptied(st.requests, now, age, more) == Emptied(st.requests, now, age, done);
    assert Gone(st, now, age, more) == Gone(st, now, age, done);
  }

  // Deleting one more aged peer.
  lemma PurgeOneMore(st: Store, c: Cache, now: int, age: int, done: set<PeerKey>, key: PeerKey)
    requires AgedKey(st, key, now, age) && key !in done
    ensures var (st1, c1) := PurgeSome(st, c, now, age, done);
            DeletePeer(st1, c1, key) == PurgeSome(st, c, now, age, done + {key})
  {
    hide Gone, IdsOf, LeftOf;
    SessionsOneMore(st, c, now, age, done, key);
    RequestsOneMore(st.requests, c, now, age, done, key);
  }

  lemma SessionsOneMore(st: Store, c: Cache, now: int, age: int, done: set<PeerKey>, key: PeerKey)
    requires AgedKey(st, key, now, age) && key !in done
    ensures var st1 := PurgeSome(st, c, now, age, done).0;
            var st2 := PurgeSome(st, c, now, age, done + {key}).0;
            EndSession(st1, key) == st2.(requests := st1.requests)
  {
    hide LeftRequests, Emptied;
    var gone, more := Gone(st, now, age, done), Gone(st, now, age, done + {key});
    if key in st.sessions {
      assert more == gone + {key};
      assert IdsOf(st.sessions, more) == IdsOf(st.sessions, gone) + {st.sessions[key]};
      assert st.sessions - more == (st.sessions - gone) - {key};
    } else {
      assert more == gone;
    }
  }

  lemma LeftElsewhere(peers: map<PeerID, Request>, h: InfoHash, now: int, age: int, done: set<PeerKey>, key: PeerKey)
    requires h != key.infoHash
    ensures LeftOf(peers, h, now, age, done + {key}) == LeftOf(peers, h, now, age, done)
  {
  }

  lemma LeftHere(peers: map<PeerID, Request>, now: int, age: int, done: set<PeerKey>, key: PeerKey)
    requires key.peerID in peers && Aged(peers[key.peerID], now, age) && key !in done
    ensures key.peerID in LeftOf(peers, key.infoHash, now, age, done)
    ensures LeftOf(peers, key.infoHash, now, age, done + {key}) == LeftOf(peers, key.infoHash, now, age, done) - {key.peerID}
  {
  }

  lemma RequestsOneMore(requests: Requests, c: Cache, now: int, age: int, done: set<PeerKey>, key: PeerKey)
    requires key.infoHash in requests && key.peerID in requests[key.infoHash] && key !in done
    requires Aged(requests[key.infoHash][key.peerID], now, age)
    ensures var h := key.infoHash;
            var before, after := LeftRequests(requests, now, age, done), LeftRequests(requests, now, age, done + {key});
            var c1, c2 := c - Emptied(requests, now, age, done), c - Emptied(requests, now, age, done + {key});
            && h in before
            && (if before[h] - {key.peerID} == map[] then after == before - {h} && c2 == Cleanup(c1, h)
                else after == before[h := before[h] - {key.peerID}] && c2 == c1)
  {
    hide LeftOf, Aged;
    var h := key.infoHash;
    var more := done + {key};
    forall g | g in requests ensures g != h ==> LeftOf(requests[g], g, now, age, more) == LeftOf(requests[g], g, now, age, done) {
      if g != h {
        LeftElsewhere(requests[g], g, now, age, done, key);
      }
    }
    LeftHere(requests[h], now, age, done, key);
    if LeftOf(requests[h], h, now, age, more) == map[] {
      assert Emptied(requests, now, age, more) == Emptied(requests, now, age, done) + {h};
    } else {
      assert Emptied(requests, now, age, more) == Emptied(requests, now, age, done);
    }
  }

  lemma PurgeEverything(st: Store, c: Cache, now: int, age: int, done: set<PeerKey>)
    requires forall key :: HasPeer(st, key) ==> key in done
    ensures PurgeSome(st, c, now, age, done) == Purge(st, c, now, age)
  {
    forall h | h in st.requests ensures LeftOf(st.requests[h], h, now, age, done) == Fresh(st.requests[h], now, age) {
      forall p | p in st.requests[h] ensures PeerKey(h, p) in done {
        assert HasPeer(st, PeerKey(h, p));
      }
    }
    assert LeftRequests(st.requests, now, age, done) == FreshRequests(st.requests, now, age);
    assert Emptied(st.requests, now, age, done) == AgedHashes(st.requests, now, age);
    assert Gone(st, now, age, done) == AgedSessions(st, now, age);
  }

  class Storage {
    var Requests: map<InfoHash, map<PeerID, Request>>
    var peerSessions: map<PeerKey, SessionId>
    const forwarderStorage: ForwarderCache.ForwarderStorage

    // The contexts created so far, the cancelled ones, and whether their parent is cancelled.
    var issued: seq<PeerKey>
    var ended: set<SessionId>
    var closed: bool

    function View(): Store
      reads this
    {
      Store(Requests, peerSessions, issued, ended, closed)
    }

    // What every method keeps: see StoreModel.Valid.
    ghost predicate Ok()
      reads this, forwarderStorage
    {
      Valid(View()) && NoEmpty(forwarderStorage.Entries) && Covers(View(), forwarderStorage.Entries)
    }

    constructor (forwarderStorage: ForwarderCache.ForwarderStorage)
      requires forwarderStorage.Entries == map[]
      ensures Ok() && View() == EMPTY_STORE && this.forwarderStorage == forwarderStorage
    {
      this.forwarderStorage := forwarderStorage;
      Requests, peerSessions, issued, ended, closed := map[], map[], [], {}, false;
    }

    method Update(request: Request) returns (session: SessionId)
      requires Ok()
      modifies this
      ensures Ok() && (View(), session) == StoreModel.Update(old(View()), request)
    {
      hide Valid;
      UpdateKeeps(View(), request);
      ghost var c := forwarderStorage.Entries;
      if request.infoHash !in Requests {
        Requests := Requests[request.infoHash := map[]];
      }
      Requests := Requests[request.infoHash := Requests[request.infoHash][request.peerID := request]];
      assert Requests == StoreModel.Update(old(View()), request).0.requests;
      var key := request.Key();
      if key !in peerSessions {
        session := |issued|;
        issued := issued + [key];
        if closed {
          ended := ended + {session};
        }
        peerSessions := peerSessions[key := session];
      }
      session := peerSessions[key];
    }

    method CancelSession(key: PeerKey)
      modifies `peerSessions, `ended
      ensures View() == EndSession(old(View()), key)
    {
      if key in peerSessions {
        ended := ended + {peerSessions[key]};
        peerSessions := peerSessions - {key};
      }
    }

    method DeleteLocked(key: PeerKey)
      modifies this, forwarderStorage`Entries
      ensures (View(), forwarderStorage.Entries) == DeletePeer(old(View()), old(forwarderStorage.Entries), key)
    {
      CancelSession(key);
      if key.infoHash in Requests {
        var requests := Requests[key.infoHash] - {key.peerID};
        if |requests| == 0 {
          Requests := Requests - {key.infoHash};
          forwarderStorage.Cleanup(key.infoHash);
        } else {
          Requests := Requests[key.infoHash := requests];
        }
      }
    }

    // The session returned is the one to cancel pending jobs for, if the peer had one.
    method HandleStopped(key: PeerKey) returns (session: Option<SessionId>)
      requires Ok()
      modifies this, forwarderStorage`Entries
      ensures Ok() && (View(), forwarderStorage.Entries) == StopPeer(old(View()), old(forwarderStorage.Entries), key)
      ensures session == if key in old(peerSessions) then Some(old(peerSessions)[key]) else None
      ensures session.Some? ==>
        session.value in ended && session.value < |issued| && issued[session.value] == key
      ensures forall g :: g != key.infoHash ==> At(forwarderStorage.Entries, g) == old(At(forwarderStorage.Entries, g))
      ensures forall left :: HasPeer(View(), left) ==>
        At(forwarderStorage.Entries, left.infoHash) == old(At(forwarderStorage.Entries, left.infoHash))
    {
      ghost var st, c := View(), forwarderStorage.Entries;
      forall g: InfoHash ensures g != key.infoHash ==> At(StopPeer(st, c, key).1, g) == At(c, g) {
        StopIsLocal(st, c, key, g);
      }
      forall left | HasPeer(StopPeer(st, c, key).0, left)
        ensures At(StopPeer(st, c, key).1, left.infoHash) == At(c, left.infoHash)
      {
        StopSparesCache(st, c, key, left);
      }
      StopPeerKeeps(View(), forwarderStorage.Entries, key);
      session := if key in peerSessions then Some(peerSessions[key]) else None;
      DeleteLocked(key);
      if key.infoHash !in Requests || |Requests[key.infoHash]| == 0 {
        forwarderStorage.Cleanup(key.infoHash);
      }
    }

    method PeerContext(key: PeerKey) returns (session: Option<SessionId>)
      requires Ok()
      ensures session.Some? <==> key in peerSessions
      ensures session.Some? ==>
        session.value < |issued| && issued[session.value] == key && (closed || session.value !in ended)
    {
      session := if key in peerSessions then Some(peerSessions[key]) else None;
    }

    // Both loops delete from the maps they range over; the order of the visit does not matter.
    method PurgeExpired(now: int, age: int)
      requires Ok()
      modifies this, forwarderStorage`Entries
      ensures Ok() && (View(), forwarderStorage.Entries) == Purge(old(View()), old(forwarderStorage.Entries), now, age)
    {
      hide Valid, Purge, PurgeSome;
      ghost var st, c := View(), forwarderStorage.Entries;
      PurgeKeeps(st, c, now, age);
      PurgeNone(st, c, now, age);
      var all := Requests;
      ghost var done: set<PeerKey> := {};
      var hashes := all.Keys;
      while hashes != {}
        invariant hashes <= all.Keys && all == st.requests
        invariant forall key :: HasPeer(st, key) && key.infoHash !in hashes ==> key in done
        invariant forall key :: key in done ==> key.infoHash !in hashes
        invariant (View(), forwarderStorage.Entries) == PurgeSome(st, c, now, age, done)
        decreases hashes
      {
        var h :| h in hashes;
        hashes := hashes - {h};
        done := PurgeHash(h, all[h], now, age, st, c, done);
      }
      PurgeEverything(st, c, now, age, done);
    }

    // The inner loop: all peers of one hash.
    method PurgeHash(h: InfoHash, requests: map<PeerID, Request>, now: int, age: int,
                     ghost st: Store, ghost c: Cache, ghost done: set<PeerKey>)
      returns (ghost more: set<PeerKey>)
      requires h in st.requests && requests == st.requests[h]
      requires (View(), forwarderStorage.Entries) == PurgeSome(st, c, now, age, done)
      requires forall key :: key in done ==> key.infoHash != h
      modifies this, forwarderStorage`Entries
      ensures (View(), forwarderStorage.Entries) == PurgeSome(st, c, now, age, more)
      ensures forall key :: key in more <==> key in done || (key.infoHash == h && key.peerID in requests)
    {
      hide PurgeSome, DeletePeer;
      more := done;
      var peers := requests.Keys;
      while peers != {}
        invariant peers <= requests.Keys
        invariant forall key :: key in more <==> key in done || (key.infoHash == h && key.peerID in requests && key.peerID !in peers)
        invariant (View(), forwarderStorage.Entries) == PurgeSome(st, c, now, age, more)
        decreases peers
      {
        var p :| p in peers;
        peers := peers - {p};
        ghost var key := PeerKey(h, p);
        if Aged(requests[p], now, age) {
          PurgeOneMore(st, c, now, age, more, key);
          DeleteLocked(PeerKey(h, p));
        } else {
          PurgeSkips(st, c, now, age, more, key);
        }
        more := more + {key};
      }
    }

    method Close()
      requires Ok()
      modifies this
      ensures Ok() && View() == ClearSessions(CancelAll(old(View())))
    {
      CloseKeeps(View());
      CloseKeeps(CancelAll(View()));
      closed, ended := true, ended + AllIds(View());
      peerSessions := map[];
    }
  }
}
