// Values shared by the peer store, the upstream cache and the forwarding queue.
module Types {
  datatype Option<+T> = None | Some(value: T)

  type Byte = x: int | 0 <= x < 256
  type Bytes = seq<Byte>

  // Go's `type InfoHash string` and `type PeerID string`: named byte strings, compared whole.
  datatype InfoHash = InfoHash(raw: Bytes)
  datatype PeerID = PeerID(raw: Bytes)
  datatype PeerKey = PeerKey(infoHash: InfoHash, peerID: PeerID)

  // The text of an address. Parsing it is a parameter of the modules that need it.
  type Address = string

  datatype Peer = Peer(peerID: PeerID, ip: Address, port: int)

  // Instants and durations count nanoseconds. ZERO_TIME is Go's zero time.Time; real clocks read later.
  const ZERO_TIME: int := 0
  const SECOND: int := 1_000_000_000
  const MINUTE: int := 60 * SECOND

  const EVENT_COMPLETED := "completed"

  // The fields of tracker.Request that the modelled code reads.
  datatype Request = Request(
    infoHash: InfoHash, peerID: PeerID, remoteAddr: Address, ip: Address, port: int,
    left: nat, numWant: nat, event: string, timestamp: int)
  {
    function Key(): PeerKey {
      PeerKey(infoHash, peerID)
    }

    // The announced address, or the socket's address when the announce carried none.
    function AsPeer(): Peer {
      Peer(peerID, if ip == "" then remoteAddr else ip, port)
    }
  }

  function Max(a: int, b: int): int {
    if a < b then b else a
  }

  function Min(a: int, b: int): int {
    if a < b then a else b
  }
}
