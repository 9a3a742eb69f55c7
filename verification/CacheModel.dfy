// The upstream cache as a value: what each operation of forwarderStorage.go does to `Entries`.
module CacheModel {
  import opened Types

  datatype Entry = Entry(peers: seq<Peer>, interval: int, lastUpdate: int, nextAnnounce: int)

  type Forwarders = map<string, Entry>
  type Cache = map<InfoHash, Forwarders>

  // Go's zero ForwarderPeerEntry, read when a forwarder has no entry yet.
  const ZERO_ENTRY := Entry([], 0, ZERO_TIME, ZERO_TIME)

  const DEFAULT_PEER_AGE: int := 180 * MINUTE

  // No hash is kept with an empty inner map.
  ghost predicate NoEmpty(c: Cache) {
    forall h :: h in c ==> c[h] != map[]
  }

  function At(c: Cache, h: InfoHash): Forwarders {
    if h in c then c[h] else map[]
  }

  function EntryAt(c: Cache, h: InfoHash, name: string): Entry {
    if name in At(c, h) then At(c, h)[name] else ZERO_ENTRY
  }

  function Put(c: Cache, h: InfoHash, name: string, e: Entry): Cache {
    c[h := At(c, h)[name := e]]
  }

  function UpdatePeers(c: Cache, h: InfoHash, name: string, peers: seq<Peer>, interval: int, now: int): Cache {
    Put(c, h, name, Entry(peers, interval, now, now + interval * SECOND))
  }

  // The new cache and the instant that ends the cooldown.
  function DeferAnnounce(c: Cache, h: InfoHash, name: string, until: int): (Cache, int) {
    var entry := EntryAt(c, h, name);
    if entry.nextAnnounce > until then
      (c[h := At(c, h)], entry.nextAnnounce)
    else
      (Put(c, h, name, entry.(nextAnnounce := until)), until)
  }

  function PeerAge(maxPeerAge: int): int {
    if maxPeerAge <= 0 then DEFAULT_PEER_AGE else maxPeerAge
  }

  predicate Expired(e: Entry, now: int, maxPeerAge: int) {
    now - e.lastUpdate >= PeerAge(maxPeerAge)
  }

  // An expired entry survives without its peers while its cooldown runs, and disappears after that.
  predicate Survives(e: Entry, now: int, maxPeerAge: int) {
    !Expired(e, now, maxPeerAge) || e.nextAnnounce > now
  }

  function PrunedEntry(e: Entry, now: int, maxPeerAge: int): Entry {
    if Expired(e, now, maxPeerAge) then e.(peers := []) else e
  }

  function PrunedForwarders(f: Forwarders, now: int, maxPeerAge: int): Forwarders {
    map name | name in f && Survives(f[name], now, maxPeerAge) :: PrunedEntry(f[name], now, maxPeerAge)
  }

  function Prune(c: Cache, now: int, maxPeerAge: int): Cache {
    map h | h in c && PrunedForwarders(c[h], now, maxPeerAge) != map[] :: PrunedForwarders(c[h], now, maxPeerAge)
  }

  function Cleanup(c: Cache, h: InfoHash): Cache {
    c - {h}
  }

  function WithoutForwarder(c: Cache, name: string): Cache {
    map h | h in c && c[h] - {name} != map[] :: c[h] - {name}
  }
}
