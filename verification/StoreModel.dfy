// The local peer store as a value: requests, peer sessions, and the history of issued sessions.
module StoreModel {
  import opened Types
  import opened CacheModel

  // A session is the identity of one cancellable context: its index in `issued`, the history of the
  // keys that sessions were created for. `ended` holds the cancelled ones.
  type SessionId = nat

  datatype Store = Store(
    requests: map<InfoHash, map<PeerID, Request>>,
    sessions: map<PeerKey, SessionId>,
    issued: seq<PeerKey>,
    ended: set<SessionId>,
    closed: bool)

  const EMPTY_STORE := Store(map[], map[], [], {}, false)

  function PeersOf(st: Store, h: InfoHash): map<PeerID, Request> {
    if h in st.requests then st.requests[h] else map[]
  }

  predicate HasPeer(st: Store, key: PeerKey) {
    key.infoHash in st.requests && key.peerID in st.requests[key.infoHash]
  }

  // Insert or replace the request; reuse the live session or create one, born cancelled after closing.
  function Update(st: Store, r: Request): (Store, SessionId) {
    var requests := st.requests[r.infoHash := PeersOf(st, r.infoHash)[r.peerID := r]];
    var key := r.Key();
    if key in st.sessions then
      (st.(requests := requests), st.sessions[key])
    else
      var id := |st.issued|;
      (st.(requests := requests, sessions := st.sessions[key := id], issued := st.issued + [key],
           ended := if st.closed then st.ended + {id} else st.ended), id)
  }

  function EndSession(st: Store, key: PeerKey): Store {
    if key in st.sessions then
      st.(sessions := st.sessions - {key}, ended := st.ended + {st.sessions[key]})
    else
      st
  }

  // deleteLocked: end the session, drop the request, and drop the hash with its cache after the last peer.
  function DeletePeer(st: Store, c: Cache, key: PeerKey): (Store, Cache) {
    var st1 := EndSession(st, key);
    if key.infoHash !in st1.requests then
      (st1, c)
    else
      var left := st1.requests[key.infoHash] - {key.peerID};
      if left == map[] then
        (st1.(requests := st1.requests - {key.infoHash}), Cleanup(c, key.infoHash))
      else
        (st1.(requests := st1.requests[key.infoHash := left]), c)
  }

  // The locked section of handleStoppedEvent: delete, then clean the cache of a hash without peers.
  function StopPeer(st: Store, c: Cache, key: PeerKey): (Store, Cache) {
    var (st1, c1) := DeletePeer(st, c, key);
    (st1, if PeersOf(st1, key.infoHash) == map[] then Cleanup(c1, key.infoHash) else c1)
  }

  predicate Aged(r: Request, now: int, age: int) {
    now - r.timestamp > age
  }

  function Fresh(peers: map<PeerID, Request>, now: int, age: int): map<PeerID, Request> {
    map p | p in peers && !Aged(peers[p], now, age) :: peers[p]
  }

  predicate AgedKey(st: Store, key: PeerKey, now: int, age: int) {
    HasPeer(st, key) && Aged(st.requests[key.infoHash][key.peerID], now, age)
  }

  type Requests = map<InfoHash, map<PeerID, Request>>

  function FreshRequests(requests: Requests, now: int, age: int): Requests {
    map h | h in requests && Fresh(requests[h], now, age) != map[] :: Fresh(requests[h], now, age)
  }

  function AgedHashes(requests: Requests, now: int, age: int): set<InfoHash> {
    set h | h in requests && Fresh(requests[h], now, age) == map[]
  }

  function AgedSessions(st: Store, now: int, age: int): set<PeerKey> {
    set key | key in st.sessions && AgedKey(st, key, now, age)
  }

  function IdsOf(sessions: map<PeerKey, SessionId>, keys: set<PeerKey>): set<SessionId> {
    set key | key in keys && key in sessions :: sessions[key]
  }

  // purgeExpired: every aged peer is deleted and its session ended; emptied hashes lose their cache.
  function Purge(st: Store, c: Cache, now: int, age: int): (Store, Cache) {
    var gone := AgedSessions(st, now, age);
    (st.(requests := FreshRequests(st.requests, now, age),
         sessions := st.sessions - gone,
         ended := st.ended + IdsOf(st.sessions, gone)),
     c - AgedHashes(st.requests, now, age))
  }

  function AllIds(st: Store): set<SessionId> {
    set id {:trigger st.issued[id]} | 0 <= id < |st.issued|
  }

  // Close, first half: cancelling the parent context ends every session, present and future.
  function CancelAll(st: Store): Store {
    st.(closed := true, ended := st.ended + AllIds(st))
  }

  // Close, second half: the session table is emptied under the lock; requests stay.
  function ClearSessions(st: Store): Store {
    st.(sessions := map[])
  }

  // A live session is the current session of the key it was issued for.
  ghost predicate LiveIsCurrent(st: Store) {
    forall id :: 0 <= id < |st.issued| && id !in st.ended ==>
      st.issued[id] in st.sessions && st.sessions[st.issued[id]] == id
  }

  // Every current session was issued for its key, and its key has a local peer.
  ghost predicate CurrentIsBacked(st: Store) {
    forall key :: key in st.sessions ==>
      && st.sessions[key] < |st.issued|
      && st.issued[st.sessions[key]] == key
      && HasPeer(st, key)
  }

  // Until Close, every local peer has a live session; afterwards no session is live.
  ghost predicate PeersAreLive(st: Store) {
    if st.closed then
      forall id :: 0 <= id < |st.issued| ==> id in st.ended
    else
      forall key :: HasPeer(st, key) ==> key in st.sessions && st.sessions[key] !in st.ended
  }

  ghost predicate NoEmptyHash(st: Store) {
    forall h :: h in st.requests ==> st.requests[h] != map[]
  }

  // What every locked section keeps.
  ghost predicate Valid(st: Store) {
    && LiveIsCurrent(st)
    && CurrentIsBacked(st)
    && PeersAreLive(st)
    && NoEmptyHash(st)
    && (forall id :: id in st.ended ==> id < |st.issued|)
  }

  // Every cached hash has a local peer.
  ghost predicate Covers(st: Store, c: Cache) {
    forall h :: h in c ==> h in st.requests
  }

  // Sessions stay issued for the same key and stay ended.
  ghost predicate Grows(st: Store, st': Store) {
    && st.ended <= st'.ended
    && |st.issued| <= |st'.issued|
    && (forall id :: 0 <= id < |st.issued| ==> st'.issued[id] == st.issued[id])
  }

  lemma UpdatePeersSet(st: Store, r: Request, key: PeerKey)
    ensures HasPeer(Update(st, r).0, key) <==> key == r.Key() || HasPeer(st, key)
  {
  }

  // The announced request replaces the peer's old one, and no other peer's.
  lemma UpdateStores(st: Store, r: Request, key: PeerKey)
    requires HasPeer(Update(st, r).0, key)
    ensures PeersOf(Update(st, r).0, key.infoHash)[key.peerID] ==
            if key == r.Key() then r else PeersOf(st, key.infoHash)[key.peerID]
  {
    UpdatePeersSet(st, r, key);
  }

  lemma UpdateKeeps(st: Store, r: Request)
    requires Valid(st)
    ensures Valid(Update(st, r).0) && Grows(st, Update(st, r).0)
    ensures var (st', id) := Update(st, r);
            && HasPeer(st', r.Key()) && r.Key() in st'.sessions && st'.sessions[r.Key()] == id
            && (if r.Key() in st.sessions then id == st.sessions[r.Key()] else id == |st.issued|)
            && st.requests.Keys <= st'.requests.Keys
  {
    hide HasPeer;
    var st' := Update(st, r).0;
    forall key ensures HasPeer(st', key) <==> key == r.Key() || HasPeer(st, key) {
      UpdatePeersSet(st, r, key);
    }
    UpdateKeepsHashes(st, r);
    AddedIsValid(st, st', r.Key());
  }

  lemma UpdateKeepsHashes(st: Store, r: Request)
    requires NoEmptyHash(st)
    ensures NoEmptyHash(Update(st, r).0)
  {
    assert r.peerID in Update(st, r).0.requests[r.infoHash];
  }

  // A store that gained at most one peer, with a session for it, is valid.
  lemma AddedIsValid(st: Store, st': Store, key: PeerKey)
    requires Valid(st) && NoEmptyHash(st') && st'.closed == st.closed
    requires forall k :: HasPeer(st', k) <==> k == key || HasPeer(st, k)
    requires if key in st.sessions then st'.sessions == st.sessions && st'.ended == st.ended && st'.issued == st.issued
             else && st'.sessions == st.sessions[key := |st.issued|] && st'.issued == st.issued + [key]
                  && st'.ended == if st.closed then st.ended + {|st.issued|} else st.ended
    ensures Valid(st') && Grows(st, st')
  {
    hide HasPeer, NoEmptyHash;
    assert LiveIsCurrent(st');
    assert PeersAreLive(st');
  }

  lemma DeletePeersSet(st: Store, c: Cache, gone: PeerKey, key: PeerKey)
    ensures HasPeer(DeletePeer(st, c, gone).0, key) <==> key != gone && HasPeer(st, key)
  {
    var st' := DeletePeer(st, c, gone).0;
    if key != gone && HasPeer(st, key) && key.infoHash == gone.infoHash {
      assert key.peerID in st.requests[gone.infoHash] - {gone.peerID};
    }
  }

  lemma EndSessionKeeps(st: Store, key: PeerKey)
    requires Valid(st)
    ensures var st' := EndSession(st, key);
            && LiveIsCurrent(st') && Grows(st, st')
            && key !in st'.sessions
            && (key in st.sessions ==> st.sessions[key] in st'.ended)
            && (forall k :: k in st'.sessions <==> k != key && k in st.sessions)
            && (forall k :: k in st'.sessions ==> st'.sessions[k] == st.sessions[k])
            && (forall id :: id in st'.ended <==> id in st.ended || (key in st.sessions && id == st.sessions[key]))
  {
  }

  // The parts of DeletePeer that concern hashes: no empty hash, and no cache without a hash.
  lemma DeletePeerHashes(st: Store, c: Cache, key: PeerKey)
    requires NoEmptyHash(st) && Covers(st, c) && NoEmpty(c)
    ensures var (st', c') := DeletePeer(st, c, key);
            && NoEmptyHash(st') && Covers(st', c') && NoEmpty(c')
            && st'.sessions == EndSession(st, key).sessions
            && st'.ended == EndSession(st, key).ended
            && st'.issued == st.issued && st'.closed == st.closed
  {
  }

  lemma DeletePeerKeeps(st: Store, c: Cache, key: PeerKey)
    requires Valid(st) && Covers(st, c) && NoEmpty(c)
    ensures Valid(DeletePeer(st, c, key).0) && Grows(st, DeletePeer(st, c, key).0)
    ensures var (st', c') := DeletePeer(st, c, key);
            && Covers(st', c') && NoEmpty(c')
            && !HasPeer(st', key) && key !in st'.sessions
            && (key in st.sessions ==> st.sessions[key] in st'.ended)
  {
    EndSessionKeeps(st, key);
    DeletePeerHashes(st, c, key);
    ghost var st' := DeletePeer(st, c, key).0;
    forall k ensures HasPeer(st', k) <==> k != key && HasPeer(st, k) {
      DeletePeersSet(st, c, key, k);
    }
    DeletedIsValid(st, st', key);
  }

  // A store that lost exactly one peer and its session is valid.
  lemma DeletedIsValid(st: Store, st': Store, key: PeerKey)
    requires Valid(st) && NoEmptyHash(st')
    requires forall k :: HasPeer(st', k) <==> k != key && HasPeer(st, k)
    requires st'.sessions == EndSession(st, key).sessions && st'.ended == EndSession(st, key).ended
    requires st'.issued == st.issued && st'.closed == st.closed
    ensures Valid(st') && Grows(st, st')
  {
    EndSessionKeeps(st, key);
    assert LiveIsCurrent(st');
    assert CurrentIsBacked(st');
    assert PeersAreLive(st');
  }

  lemma StopPeerKeeps(st: Store, c: Cache, key: PeerKey)
    requires Valid(st) && Covers(st, c) && NoEmpty(c)
    ensures Valid(StopPeer(st, c, key).0) && Grows(st, StopPeer(st, c, key).0)
    ensures var (st', c') := StopPeer(st, c, key);
            && Covers(st', c') && NoEmpty(c')
            && !HasPeer(st', key) && key !in st'.sessions
            && (key in st.sessions ==> st.sessions[key] in st'.ended)
  {
    DeletePeerKeeps(st, c, key);
  }

  lemma PurgePeersSet(st: Store, c: Cache, now: int, age: int, key: PeerKey)
    ensures HasPeer(Purge(st, c, now, age).0, key) <==> HasPeer(st, key) && !AgedKey(st, key, now, age)
  {
    if HasPeer(st, key) && !AgedKey(st, key, now, age) {
      assert key.peerID in Fresh(st.requests[key.infoHash], now, age);
    }
  }

  lemma PurgeKeeps(st: Store, c: Cache, now: int, age: int)
    requires Valid(st) && Covers(st, c) && NoEmpty(c)
    ensures Valid(Purge(st, c, now, age).0) && Grows(st, Purge(st, c, now, age).0)
    ensures var (st', c') := Purge(st, c, now, age);
            && Covers(st', c') && NoEmpty(c')
            && (forall key :: HasPeer(st', key) <==> HasPeer(st, key) && !AgedKey(st, key, now, age))
            && (forall key :: key in st.sessions && AgedKey(st, key, now, age) ==> st.sessions[key] in st'.ended)
  {
    var (st', c') := Purge(st, c, now, age);
    forall key ensures HasPeer(st', key) <==> HasPeer(st, key) && !AgedKey(st, key, now, age) {
      PurgePeersSet(st, c, now, age, key);
    }
    assert CurrentIsBacked(st');
    assert LiveIsCurrent(st');
    assert PeersAreLive(st') by {
      forall key | !st.closed && HasPeer(st', key) ensures st'.sessions[key] !in st'.ended {
        assert st.issued[st.sessions[key]] == key;
      }
    }
  }

  lemma CloseKeeps(st: Store)
    requires Valid(st)
    ensures Valid(CancelAll(st)) && Grows(st, CancelAll(st))
    ensures st.closed ==> Valid(ClearSessions(st)) && Grows(st, ClearSessions(st))
  {
    forall key | HasPeer(st, key) ensures HasPeer(CancelAll(st), key) {}
  }

  // What the sections leave alone, and what they remove

  // An update touches no other peer's session, and a session created after closing is ended at once.
  lemma UpdateSessions(st: Store, r: Request, key: PeerKey)
    ensures var (st', id) := Update(st, r);
            && (key != r.Key() ==> (key in st'.sessions <==> key in st.sessions))
            && (key != r.Key() && key in st.sessions ==> st'.sessions[key] == st.sessions[key])
            && (forall i :: i in st'.ended <==> i in st.ended || (st.closed && r.Key() !in st.sessions && i == id))
  {
  }

  // The upstream cache of a hash that keeps a local peer stays as it was.
  lemma DeleteSparesCache(st: Store, c: Cache, key: PeerKey, left: PeerKey)
    requires HasPeer(DeletePeer(st, c, key).0, left)
    ensures var c' := DeletePeer(st, c, key).1;
            (left.infoHash in c' <==> left.infoHash in c) && At(c', left.infoHash) == At(c, left.infoHash)
  {
  }

  lemma StopSparesCache(st: Store, c: Cache, key: PeerKey, left: PeerKey)
    requires HasPeer(StopPeer(st, c, key).0, left)
    ensures var c' := StopPeer(st, c, key).1;
            (left.infoHash in c' <==> left.infoHash in c) && At(c', left.infoHash) == At(c, left.infoHash)
  {
    DeleteSparesCache(st, c, key, left);
  }

  lemma PurgeSparesCache(st: Store, c: Cache, now: int, age: int, left: PeerKey)
    requires HasPeer(Purge(st, c, now, age).0, left)
    ensures var c' := Purge(st, c, now, age).1;
            (left.infoHash in c' <==> left.infoHash in c) && At(c', left.infoHash) == At(c, left.infoHash)
  {
    PurgePeersSet(st, c, now, age, left);
    assert left.peerID in Fresh(st.requests[left.infoHash], now, age);
  }

  // A stopped event is about one hash: the cache of every other one stays, and the cache of this one goes
  // exactly with its last peer.
  lemma StopIsLocal(st: Store, c: Cache, key: PeerKey, g: InfoHash)
    ensures var (st', c') := StopPeer(st, c, key);
            && (g != key.infoHash ==> (g in c' <==> g in c) && At(c', g) == At(c, g))
            && (key.infoHash in c' <==> key.infoHash in c && exists p :: HasPeer(st', PeerKey(key.infoHash, p)))
  {
    var (st', c') := StopPeer(st, c, key);
    if key.infoHash in c' {
      assert PeersOf(st', key.infoHash).Keys != {};
      var p :| p in PeersOf(st', key.infoHash);
      assert HasPeer(st', PeerKey(key.infoHash, p));
    }
    if p :| HasPeer(st', PeerKey(key.infoHash, p)) {
      StopSparesCache(st, c, key, PeerKey(key.infoHash, p));
    }
  }

  // Only the deleted peer's request and session go.
  lemma DeleteIsLocal(st: Store, c: Cache, key: PeerKey, other: PeerKey)
    requires other != key
    ensures var st' := DeletePeer(st, c, key).0;
            && (HasPeer(st', other) <==> HasPeer(st, other))
            && (HasPeer(st, other) ==> st'.requests[other.infoHash][other.peerID] == st.requests[other.infoHash][other.peerID])
            && (other in st'.sessions <==> other in st.sessions)
            && (other in st.sessions ==> st'.sessions[other] == st.sessions[other])
            && (forall id :: id in st'.ended <==> id in st.ended || (key in st.sessions && id == st.sessions[key]))
  {
    DeletePeersSet(st, c, key, other);
  }

  // A purge removes the peers announced more than `age` ago, and leaves the others as they were.
  lemma PurgeIsByAge(st: Store, c: Cache, now: int, age: int, key: PeerKey)
    ensures var st' := Purge(st, c, now, age).0;
            && (HasPeer(st', key) <==> HasPeer(st, key) && now - st.requests[key.infoHash][key.peerID].timestamp <= age)
            && (HasPeer(st', key) ==>
                  && st'.requests[key.infoHash][key.peerID] == st.requests[key.infoHash][key.peerID]
                  && (key in st'.sessions <==> key in st.sessions)
                  && (key in st.sessions ==> st'.sessions[key] == st.sessions[key]))
            && (key in st.sessions && HasPeer(st, key) && now - st.requests[key.infoHash][key.peerID].timestamp > age ==>
                  key !in st'.sessions && st.sessions[key] in st'.ended)
            && (forall id :: id in st'.ended ==> id in st.ended || exists k :: k in st.sessions && k !in st'.sessions && st.sessions[k] == id)
  {
    PurgePeersSet(st, c, now, age, key);
    var st' := Purge(st, c, now, age).0;
    forall id | id in st'.ended && id !in st.ended
      ensures exists k :: k in st.sessions && k !in st'.sessions && st.sessions[k] == id
    {
      var k :| k in AgedSessions(st, now, age) && k in st.sessions && st.sessions[k] == id;
      assert k !in st'.sessions;
    }
  }

  // Closing ends every session ever issued, and every later one at its creation; the requests stay.
  lemma ClosedForGood(st: Store, r: Request)
    ensures var st' := ClearSessions(CancelAll(st));
            && st'.requests == st.requests && st'.sessions == map[]
            && (forall id :: 0 <= id < |st.issued| ==> id in st'.ended)
            && Update(st', r).1 in Update(st', r).0.ended
  {
  }
}
