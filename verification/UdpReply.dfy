// The announce reply of the "UDP tracker protocol" (BEP 15): the server's printer and the client's parser.
module UdpReply {
  import opened Types
  import opened Wire
  import opened Addresses
  import opened UdpRequest
  import opened PeerFilter

  const REPLY_HEADER := 20
  const READ_BUFFER := 4096

  // The part of response.Response that a UDP reply carries.
  datatype Response = Response(interval: nat, incomplete: nat, complete: nat, peers: seq<Peer>)

  function AddressSize(isIPv6: bool): nat {
    if isIPv6 then 16 else 4
  }

  // The bytes of a peer's address, if it has an address of the reply's family.
  function AddressBytes(net: Net, a: Address, isIPv6: bool): Option<Bytes> {
    if isIPv6 then net.IPv6(a) else net.IPv4(a)
  }

  function EndpointsOf(net: Net, peers: seq<Peer>, isIPv6: bool): seq<Endpoint> {
    if peers == [] then []
    else
      var rest, last := EndpointsOf(net, peers[..|peers| - 1], isIPv6), peers[|peers| - 1];
      var ip := AddressBytes(net, last.ip, isIPv6);
      if ip.Some? then rest + [Endpoint(ip.value, last.port % 0x1_0000)] else rest
  }

  function HeaderWords(transactionID: nat, r: Response): Bytes {
    BE(ACTION_ANNOUNCE, 4) + BE(transactionID, 4) + BE(r.interval, 4) + BE(r.incomplete, 4) + BE(r.complete, 4)
  }

  function ReplyBytes(net: Net, transactionID: nat, r: Response, isIPv6: bool): Bytes {
    HeaderWords(transactionID, r) + Pack(EndpointsOf(net, r.peers, isIPv6))
  }

  // sendAnnounceResponse
  method SendAnnounceResponse(net: Net, transactionID: nat, r: Response, isIPv6: bool) returns (buf: Bytes)
    ensures buf == ReplyBytes(net, transactionID, r, isIPv6)
  {
    hide BE;
    buf := BE(ACTION_ANNOUNCE, 4);
    buf := buf + BE(transactionID, 4);
    buf := buf + BE(r.interval, 4);
    buf := buf + BE(r.incomplete, 4);
    buf := buf + BE(r.complete, 4);
    ghost var header := HeaderWords(transactionID, r);
    assert buf == header;
    for k := 0 to |r.peers|
      invariant buf == header + Pack(EndpointsOf(net, r.peers[..k], isIPv6))
    {
      var peer := r.peers[k];
      assert r.peers[..k + 1][..k] == r.peers[..k];
      if isIPv6 {
        var ip := net.IPv6(peer.ip);
        if ip.Some? {
          buf := buf + ip.value;
          buf := buf + BE(peer.port % 0x1_0000, 2);
        }
      } else {
        var ip := net.IPv4(peer.ip);
        if ip.Some? {
          buf := buf + ip.value;
          buf := buf + BE(peer.port % 0x1_0000, 2);
        }
      }
    }
    assert r.peers[..|r.peers|] == r.peers;
  }

  // The client's peers: rendered addresses, no identifiers.
  function PeersOf(net: Net, es: seq<Endpoint>): seq<Peer> {
    seq(|es|, i requires 0 <= i < |es| => Peer(PeerID([]), net.render(es[i].ip), es[i].port))
  }

  function Parsed(net: Net, packet: Bytes, isIPv6: bool): Response
    requires |packet| >= REPLY_HEADER
  {
    Response(Value(packet[8..12]), Value(packet[12..16]), Value(packet[16..20]),
             PeersOf(net, Unpack(packet[20..], AddressSize(isIPv6))))
  }

  // AnnounceContext, from the 20-byte check on.
  method ParseReply(net: Net, packet: Bytes, isIPv6: bool) returns (r: Response)
    requires |packet| >= REPLY_HEADER
    ensures r == Parsed(net, packet, isIPv6)
  {
    hide Value;
    var interval, leechers, seeders := Value(packet[8..12]), Value(packet[12..16]), Value(packet[16..20]);
    var peers: seq<Peer> := [];
    var peerData := packet[20..];
    var size := AddressSize(isIPv6);
    ghost var es := [];
    var i := 0;
    while i + size + 2 <= |peerData|
      invariant i <= |peerData|
      invariant peers == PeersOf(net, es) && es + Unpack(peerData[i..], size) == Unpack(peerData, size)
    {
      var rest := peerData[i..];
      assert peerData[i..i + size] == rest[..size];
      assert peerData[i + size..i + size + 2] == rest[size..size + 2];
      assert peerData[i + size + 2..] == rest[size + 2..];
      peers := peers + [Peer(PeerID([]), net.render(peerData[i..i + size]), Value(peerData[i + size..i + size + 2]))];
      es := es + [Endpoint(rest[..size], Value(rest[size..size + 2]))];
      i := i + size + 2;
    }
    return Response(interval, leechers, seeders, peers);
  }

  // What the client sees of a list of peers.
  function Delivered(net: Net, peers: seq<Peer>): seq<Peer> {
    seq(|peers|, i requires 0 <= i < |peers| => Peer(PeerID([]), net.Canonical(peers[i].ip), peers[i].port % 0x1_0000))
  }

  ghost predicate AllOfFamily(net: Net, peers: seq<Peer>, isIPv6: bool) {
    forall i :: 0 <= i < |peers| ==> net.parse(peers[i].ip).Some? && (isIPv6 || To4(net.parse(peers[i].ip).value).Some?)
  }

  lemma {:induction false} EndpointsFit(net: Net, peers: seq<Peer>, isIPv6: bool)
    requires net.Sound()
    ensures Fits(EndpointsOf(net, peers, isIPv6), AddressSize(isIPv6))
    ensures |EndpointsOf(net, peers, isIPv6)| <= |peers|
  {
    if peers != [] {
      EndpointsFit(net, peers[..|peers| - 1], isIPv6);
      V4Size(net, peers[|peers| - 1].ip);
    }
  }

  lemma V4Size(net: Net, a: Address)
    requires net.Sound()
    ensures net.IPv4(a).Some? ==> |net.IPv4(a).value| == 4
    ensures net.IPv6(a).Some? ==> |net.IPv6(a).value| == 16
  {
  }

  // The rendered bytes are the canonical text, in either family.
  lemma {:induction false} EndpointsDelivered(net: Net, peers: seq<Peer>, isIPv6: bool)
    requires net.Sound() && AllOfFamily(net, peers, isIPv6)
    ensures PeersOf(net, EndpointsOf(net, peers, isIPv6)) == Delivered(net, peers)
  {
    hide Net.Sound, AddressBytes, Net.Canonical, To4;
    if peers != [] {
      var front, last := peers[..|peers| - 1], peers[|peers| - 1];
      EndpointsDelivered(net, front, isIPv6);
      CanonicalBytes(net, last.ip, isIPv6);
      var ip := AddressBytes(net, last.ip, isIPv6).value;
      OneMoreDelivered(net, EndpointsOf(net, front, isIPv6), front, last, ip);
      assert peers == front + [last];
    }
  }

  lemma CanonicalBytes(net: Net, a: Address, isIPv6: bool)
    requires net.Sound() && net.parse(a).Some? && (isIPv6 || To4(net.parse(a).value).Some?)
    ensures AddressBytes(net, a, isIPv6).Some? && net.render(AddressBytes(net, a, isIPv6).value) == net.Canonical(a)
  {
  }

  lemma OneMoreDelivered(net: Net, es: seq<Endpoint>, peers: seq<Peer>, p: Peer, ip: Bytes)
    requires PeersOf(net, es) == Delivered(net, peers) && net.render(ip) == net.Canonical(p.ip)
    ensures PeersOf(net, es + [Endpoint(ip, p.port % 0x1_0000)]) == Delivered(net, peers + [p])
  {
    hide Net.Canonical;
    var q := Peer(PeerID([]), net.render(ip), p.port % 0x1_0000);
    assert PeersOf(net, es + [Endpoint(ip, p.port % 0x1_0000)]) == PeersOf(net, es) + [q];
    assert Delivered(net, peers + [p]) == Delivered(net, peers) + [q];
  }

  // Printing and parsing agree whatever the family, for peers that have an address of that family.
  lemma ReplyRoundTrip(net: Net, transactionID: nat, r: Response, isIPv6: bool)
    requires net.Sound() && AllOfFamily(net, r.peers, isIPv6)
    requires transactionID < Range(4) && r.interval < Range(4) && r.incomplete < Range(4) && r.complete < Range(4)
    ensures var bs := ReplyBytes(net, transactionID, r, isIPv6);
            && |bs| >= REPLY_HEADER
            && Value(bs[..4]) == ACTION_ANNOUNCE && Value(bs[4..8]) == transactionID
            && Parsed(net, bs, isIPv6) == r.(peers := Delivered(net, r.peers))
  {
    hide BE, Value, Range, EndpointsOf, PeersOf, Delivered, Pack, Unpack;
    var bs, es := ReplyBytes(net, transactionID, r, isIPv6), EndpointsOf(net, r.peers, isIPv6);
    Ranges();
    ValueOfBE(ACTION_ANNOUNCE, 4);
    ValueOfBE(transactionID, 4);
    ValueOfBE(r.interval, 4);
    ValueOfBE(r.incomplete, 4);
    ValueOfBE(r.complete, 4);
    assert bs[..4] == BE(ACTION_ANNOUNCE, 4) && bs[4..8] == BE(transactionID, 4);
    assert bs[8..12] == BE(r.interval, 4) && bs[12..16] == BE(r.incomplete, 4) && bs[16..20] == BE(r.complete, 4);
    assert bs[20..] == Pack(es) + [];
    EndpointsFit(net, r.peers, isIPv6);
    UnpackPack(es, AddressSize(isIPv6), []);
    EndpointsDelivered(net, r.peers, isIPv6);
  }

  lemma {:induction false} EndpointsConcat(net: Net, a: seq<Peer>, b: seq<Peer>, isIPv6: bool)
    ensures EndpointsOf(net, a + b, isIPv6) == EndpointsOf(net, a, isIPv6) + EndpointsOf(net, b, isIPv6)
    decreases |b|
  {
    if b == [] {
      assert a + b == a;
    } else {
      assert (a + b)[..|a + b| - 1] == a + b[..|b| - 1];
      EndpointsConcat(net, a, b[..|b| - 1], isIPv6);
    }
  }

  // The reply to no peers is its five words; each further peer adds its address of the reply's family and its
  // port, highest byte first, and one without such an address adds nothing.
  lemma ReplyLayout(net: Net, transactionID: nat, r: Response, p: Peer, isIPv6: bool)
    requires net.Sound()
    ensures ReplyBytes(net, transactionID, r.(peers := []), isIPv6) ==
            [0, 0, 0, 1] + BE(transactionID, 4) + BE(r.interval, 4) + BE(r.incomplete, 4) + BE(r.complete, 4)
    ensures var ip, more := net.parse(p.ip), r.(peers := r.peers + [p]);
            ReplyBytes(net, transactionID, more, isIPv6) ==
            ReplyBytes(net, transactionID, r, isIPv6) +
            if ip.Some? && (isIPv6 || ip.value[..12] == V4_PREFIX)
            then (if isIPv6 then ip.value else ip.value[12..]) + [p.port / 256 % 256, p.port % 256] else []
  {
    hide BE, Net.Sound, HeaderWords, AddressBytes, Pack, Record;
    EmptyReply(net, transactionID, r.(peers := []), isIPv6);
    FamilyBytes(net, p.ip, isIPv6);
    SameHeader(transactionID, r, r.peers + [p]);
    assert (r.peers + [p])[..|r.peers|] == r.peers;
    var ip := AddressBytes(net, p.ip, isIPv6);
    if ip.Some? {
      PackMore(EndpointsOf(net, r.peers, isIPv6), ip.value, p.port);
    }
  }

  lemma SameHeader(transactionID: nat, r: Response, peers: seq<Peer>)
    ensures HeaderWords(transactionID, r.(peers := peers)) == HeaderWords(transactionID, r)
  {
    hide BE;
  }

  lemma PackMore(es: seq<Endpoint>, ip: Bytes, port: int)
    ensures Pack(es + [Endpoint(ip, port % 0x1_0000)]) == Pack(es) + (ip + [port / 256 % 256, port % 256])
  {
    hide BE;
    PortWord(port);
    assert (es + [Endpoint(ip, port % 0x1_0000)])[..|es|] == es;
  }

  lemma PortWord(port: int)
    ensures BE(port % 0x1_0000, 2) == [port / 256 % 256, port % 256]
  {
    hide BE;
    var low := port % 0x1_0000;
    FieldBytes(low);
    Digits(256 * (port / 0x1_0000) + low / 256, low % 256);
    Digits(port / 0x1_0000, low / 256);
  }

  lemma Digits(high: int, low: nat)
    requires low < 256
    ensures (256 * high + low) / 256 == high && (256 * high + low) % 256 == low
  {
  }

  lemma EmptyReply(net: Net, transactionID: nat, r: Response, isIPv6: bool)
    requires r.peers == []
    ensures ReplyBytes(net, transactionID, r, isIPv6) ==
            [0, 0, 0, 1] + BE(transactionID, 4) + BE(r.interval, 4) + BE(r.incomplete, 4) + BE(r.complete, 4)
  {
    hide BE;
    ConstantBytes();
    NothingPacked();
  }

  lemma FamilyBytes(net: Net, a: Address, isIPv6: bool)
    requires net.Sound()
    ensures var ip := net.parse(a);
            AddressBytes(net, a, isIPv6) ==
            if ip.None? then None
            else if isIPv6 then Some(ip.value)
            else if ip.value[..12] == V4_PREFIX then Some(ip.value[12..])
            else None
  {
  }

  // The whole exchange

  // ReceiverUDP.ProcessAnnounce derives the family from the text of the client's address.
  function FamilyOf(net: Net, clientIp: Bytes): int {
    var ip := net.parse(net.render(clientIp));
    if ip.Some? && To4(ip.value).Some? then 4 else 6
  }

  function IsIPv6(clientIp: Bytes): bool {
    To4(clientIp).None?
  }

  // Only a client with a 16-byte address outside the IPv4 range gets IPv6 records, and it gets the peers of
  // family 6; every other client gets IPv4 records and the peers of family 4.
  lemma FamilyAgrees(net: Net, clientIp: Bytes)
    requires net.Sound() && |clientIp| in {4, 16}
    ensures IsIPv6(clientIp) <==> |clientIp| == 16 && clientIp[..12] != V4_PREFIX
    ensures FamilyOf(net, clientIp) == if IsIPv6(clientIp) then 6 else 4
  {
    if |clientIp| == 4 {
      MappedIsV4(clientIp);
    }
  }

  // conn.Read into a buffer: a longer datagram is cut.
  function Cut(datagram: Bytes, buffer: nat): Bytes {
    if |datagram| <= buffer then datagram else datagram[..buffer]
  }

  lemma ListedIsOfFamily(net: Net, clientIp: Bytes, requester: Peer, peers: seq<Peer>, numWant: nat)
    requires net.Sound() && |clientIp| in {4, 16}
    ensures AllOfFamily(net, Filtered(Wanted(net, FamilyOf(net, clientIp), requester), peers, numWant), IsIPv6(clientIp))
  {
    hide Filtered, FamilyOf, IsIPv6;
    FamilyAgrees(net, clientIp);
    FilteredIs(Wanted(net, FamilyOf(net, clientIp), requester), peers, numWant);
  }

  // Whatever number of peers a client asks for, the reply to it holds at most 200 of them in at most 3620
  // bytes, so it arrives whole, and parsing gives back every listed peer, in order.
  lemma ReplyArrives(net: Net, clientIp: Bytes, requester: Peer, peers: seq<Peer>, numWant: int, transactionID: nat,
                     interval: nat, incomplete: nat, complete: nat)
    requires net.Sound() && |clientIp| in {4, 16}
    requires transactionID < Range(4) && interval < Range(4) && incomplete < Range(4) && complete < Range(4)
    ensures var listed := Filtered(Wanted(net, FamilyOf(net, clientIp), requester), peers, NumWantOf(numWant));
            var r := Response(interval, incomplete, complete, listed);
            var datagram := ReplyBytes(net, transactionID, r, IsIPv6(clientIp));
            && |listed| <= MAX_NUM_WANT && REPLY_HEADER <= |datagram| <= 3620
            && Cut(datagram, READ_BUFFER) == datagram
            && Parsed(net, datagram, IsIPv6(clientIp)) == r.(peers := Delivered(net, listed))
  {
    hide BE, Value, Range, ReplyBytes, Parsed, Delivered, Filtered, FamilyOf, IsIPv6, NumWantOf, Net.Sound, AllOfFamily;
    var w := Wanted(net, FamilyOf(net, clientIp), requester);
    var listed := Filtered(w, peers, NumWantOf(numWant));
    var r := Response(interval, incomplete, complete, listed);
    assert MaxPeers(NumWantOf(numWant)) <= MAX_NUM_WANT by { NumWantBound(numWant); }
    FilteredIs(w, peers, NumWantOf(numWant));
    ListedIsOfFamily(net, clientIp, requester, peers, NumWantOf(numWant));
    ReplyRoundTrip(net, transactionID, r, IsIPv6(clientIp));
    ReplySize(net, transactionID, r, IsIPv6(clientIp));
  }

  lemma ReplySize(net: Net, transactionID: nat, r: Response, isIPv6: bool)
    requires net.Sound() && |r.peers| <= MAX_NUM_WANT
    ensures REPLY_HEADER <= |ReplyBytes(net, transactionID, r, isIPv6)| <= REPLY_HEADER + 18 * MAX_NUM_WANT == 3620
  {
    hide BE, EndpointsOf, Pack;
    EndpointsFit(net, r.peers, isIPv6);
    PackLength(EndpointsOf(net, r.peers, isIPv6), AddressSize(isIPv6));
    PackedSize(|EndpointsOf(net, r.peers, isIPv6)|, isIPv6);
  }

  lemma PackedSize(n: nat, isIPv6: bool)
    requires n <= MAX_NUM_WANT
    ensures (AddressSize(isIPv6) + 2) * n <= 18 * MAX_NUM_WANT
  {
    if isIPv6 {
      assert (AddressSize(isIPv6) + 2) * n == 18 * n;
    } else {
      assert (AddressSize(isIPv6) + 2) * n == 6 * n;
    }
  }

  lemma NumWantBound(numWant: int)
    ensures 1 <= NumWantOf(numWant) <= MAX_NUM_WANT
  {
  }

  // Peers kept with canonical text and a 16-bit port come back unchanged but for their identifiers.
  lemma DeliveredUnchanged(net: Net, peers: seq<Peer>, i: nat)
    requires net.Sound() && i < |peers| && 0 <= peers[i].port < 0x1_0000
    requires exists ip: Bytes :: |ip| in {4, 16} && peers[i].ip == net.render(ip)
    ensures Delivered(net, peers)[i] == peers[i].(peerID := PeerID([]))
  {
    var ip: Bytes :| |ip| in {4, 16} && peers[i].ip == net.render(ip);
    if |ip| == 4 {
      MappedIsV4(ip);
      assert net.render(Mapped(ip)) == net.render(ip);
    }
  }
}
