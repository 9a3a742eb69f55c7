// The announce packet of the "UDP tracker protocol" (BEP 15): the client's printer and the server's parser.
module UdpRequest {
  import opened Types
  import opened Wire
  import opened Addresses

  const ACTION_CONNECT := 0
  const ACTION_ANNOUNCE := 1
  const ACTION_ERROR := 3
  const PACKET_SIZE := 98
  const DEFAULT_NUM_WANT := 50
  const MAX_NUM_WANT := 200

  datatype Header = Header(connectionID: nat, action: nat, transactionID: nat)
  datatype Counters = Counters(downloaded: nat, left: nat, uploaded: nat)
  datatype Options = Options(event: nat, ip: nat, key: nat, numWant: int, port: nat)
  datatype Packet = Packet(header: Header, infoHash: Bytes, peerID: Bytes, counters: Counters, options: Options)

  // The announce to forward, with its identifiers checked by MakeRequest.
  datatype Announce = Announce(infoHash: InfoHash, peerID: PeerID, counters: Counters, event: string, numWant: nat, port: int)
  {
    // MakeRequest: 20-byte identifiers, 64-bit counters, a port in 1..65535 and one of four events.
    predicate Made() {
      && |infoHash.raw| == 20 && |peerID.raw| == 20
      && counters.downloaded < Range(8) && counters.left < Range(8) && counters.uploaded < Range(8)
      && 1 <= port <= 65535
      && event in ["", "started", "stopped", "completed"]
    }
  }

  function NormalizeNumWant(n: nat): (r: nat)
    ensures 1 <= r <= MAX_NUM_WANT
  {
    if n == 0 then DEFAULT_NUM_WANT else if n > MAX_NUM_WANT then MAX_NUM_WANT else n
  }

  // The packet layout.

  function HeaderBytes(h: Header): Bytes {
    BE(h.connectionID, 8) + BE(h.action, 4) + BE(h.transactionID, 4)
  }

  function CounterBytes(c: Counters): Bytes {
    BE(c.downloaded, 8) + BE(c.left, 8) + BE(c.uploaded, 8)
  }

  function OptionBytes(o: Options): Bytes {
    BE(o.event, 4) + BE(o.ip, 4) + BE(o.key, 4) + BE(ToUint32(o.numWant), 4) + BE(o.port, 2)
  }

  function Encode(p: Packet): Bytes {
    HeaderBytes(p.header) + (p.infoHash + p.peerID) + CounterBytes(p.counters) + OptionBytes(p.options)
  }

  function HeaderOf(bs: Bytes): Header
    requires |bs| == 16
  {
    Header(Value(bs[..8]), Value(bs[8..12]), Value(bs[12..16]))
  }

  function CountersOf(bs: Bytes): Counters
    requires |bs| == 24
  {
    Counters(Value(bs[..8]), Value(bs[8..16]), Value(bs[16..24]))
  }

  function OptionsOf(bs: Bytes): Options
    requires |bs| == 18
  {
    Options(Value(bs[..4]), Value(bs[4..8]), Value(bs[8..12]), ToInt32(Value(bs[12..16])), Value(bs[16..18]))
  }

  function Decode(data: Bytes): Packet
    requires |data| >= PACKET_SIZE
  {
    Packet(HeaderOf(data[..16]), data[16..36], data[36..56], CountersOf(data[56..80]), OptionsOf(data[80..98]))
  }

  // A packet whose fields fit their widths.
  predicate Encodable(p: Packet) {
    && p.header.connectionID < Range(8) && p.header.action < Range(4) && p.header.transactionID < Range(4)
    && |p.infoHash| == 20 && |p.peerID| == 20
    && p.counters.downloaded < Range(8) && p.counters.left < Range(8) && p.counters.uploaded < Range(8)
    && p.options.event < Range(4) && p.options.ip < Range(4) && p.options.key < Range(4)
    && -0x8000_0000 <= p.options.numWant < 0x8000_0000 && p.options.port < Range(2)
  }

  lemma HeaderRoundTrip(h: Header)
    requires h.connectionID < Range(8) && h.action < Range(4) && h.transactionID < Range(4)
    ensures HeaderOf(HeaderBytes(h)) == h
  {
    hide BE, Value, Range;
    var bs := HeaderBytes(h);
    assert bs[..8] == BE(h.connectionID, 8) && bs[8..12] == BE(h.action, 4) && bs[12..16] == BE(h.transactionID, 4);
    ValueOfBE(h.connectionID, 8);
    ValueOfBE(h.action, 4);
    ValueOfBE(h.transactionID, 4);
  }

  lemma CountersRoundTrip(c: Counters)
    requires c.downloaded < Range(8) && c.left < Range(8) && c.uploaded < Range(8)
    ensures CountersOf(CounterBytes(c)) == c
  {
    hide BE, Value, Range;
    var bs := CounterBytes(c);
    assert bs[..8] == BE(c.downloaded, 8) && bs[8..16] == BE(c.left, 8) && bs[16..24] == BE(c.uploaded, 8);
    ValueOfBE(c.downloaded, 8);
    ValueOfBE(c.left, 8);
    ValueOfBE(c.uploaded, 8);
  }

  lemma Signed(n: int)
    requires -0x8000_0000 <= n < 0x8000_0000
    ensures 0 <= ToUint32(n) < Range(4) && ToInt32(ToUint32(n)) == n
  {
    Ranges();
  }

  lemma OptionsRoundTrip(o: Options)
    requires o.event < Range(4) && o.ip < Range(4) && o.key < Range(4) && o.port < Range(2)
    requires -0x8000_0000 <= o.numWant < 0x8000_0000
    ensures OptionsOf(OptionBytes(o)) == o
  {
    hide BE, Value, Range, ToUint32, ToInt32;
    var bs := OptionBytes(o);
    Signed(o.numWant);
    assert bs[..4] == BE(o.event, 4) && bs[4..8] == BE(o.ip, 4) && bs[8..12] == BE(o.key, 4);
    assert bs[12..16] == BE(ToUint32(o.numWant), 4) && bs[16..18] == BE(o.port, 2);
    ValueOfBE(o.event, 4);
    ValueOfBE(o.ip, 4);
    ValueOfBE(o.key, 4);
    ValueOfBE(ToUint32(o.numWant), 4);
    ValueOfBE(o.port, 2);
  }

  // Every field of a printed packet is read back, at 98 bytes.
  lemma PacketRoundTrip(p: Packet)
    requires Encodable(p)
    ensures |Encode(p)| == PACKET_SIZE && Decode(Encode(p)) == p
  {
    hide BE, Value, Range, HeaderOf, CountersOf, OptionsOf;
    var bs := Encode(p);
    assert bs[..16] == HeaderBytes(p.header) && bs[16..36] == p.infoHash && bs[36..56] == p.peerID;
    assert bs[56..80] == CounterBytes(p.counters) && bs[80..98] == OptionBytes(p.options);
    HeaderRoundTrip(p.header);
    CountersRoundTrip(p.counters);
    OptionsRoundTrip(p.options);
  }

  lemma FieldBack(bs: Bytes, i: nat, j: nat)
    requires i <= j <= |bs|
    ensures Value(bs[i..j]) < Range(j - i) && BE(Value(bs[i..j]), j - i) == bs[i..j]
  {
    BEOfValue(bs[i..j]);
  }

  lemma HeaderBack(bs: Bytes)
    requires |bs| == 16
    ensures HeaderBytes(HeaderOf(bs)) == bs
  {
    hide BE, Value, Range;
    FieldBack(bs, 0, 8);
    FieldBack(bs, 8, 12);
    FieldBack(bs, 12, 16);
  }

  lemma CountersBack(bs: Bytes)
    requires |bs| == 24
    ensures CounterBytes(CountersOf(bs)) == bs
  {
    hide BE, Value, Range;
    FieldBack(bs, 0, 8);
    FieldBack(bs, 8, 16);
    FieldBack(bs, 16, 24);
  }

  lemma OptionsBack(bs: Bytes)
    requires |bs| == 18
    ensures OptionBytes(OptionsOf(bs)) == bs
  {
    hide BE, Value, Range;
    FieldBack(bs, 0, 4);
    FieldBack(bs, 4, 8);
    FieldBack(bs, 8, 12);
    FieldBack(bs, 12, 16);
    FieldBack(bs, 16, 18);
    Ranges();
  }

  // Conversely, what the parser read determines the first 98 bytes.
  lemma PacketBack(data: Bytes)
    requires |data| >= PACKET_SIZE
    ensures Encode(Decode(data)) == data[..PACKET_SIZE]
  {
    hide BE, Value, HeaderOf, CountersOf, OptionsOf, HeaderBytes, CounterBytes, OptionBytes;
    HeaderBack(data[..16]);
    CountersBack(data[56..80]);
    OptionsBack(data[80..98]);
  }

  // The client

  function EventCode(event: string): nat {
    if event == "completed" then 1 else if event == "started" then 2 else if event == "stopped" then 3 else 0
  }

  // The address a forwarder announces for the peer: its configured IPv4 address, or none.
  function AnnouncedIp(net: Net, ip: Address): Bytes {
    if ip != "" && net.IPv4(ip).Some? then net.IPv4(ip).value else [0, 0, 0, 0]
  }

  function PacketOf(net: Net, a: Announce, forwarderIp: Address, connectionID: nat, transactionID: nat): Packet {
    Packet(Header(connectionID, ACTION_ANNOUNCE, transactionID), a.infoHash.raw, a.peerID.raw, a.counters,
           Options(EventCode(a.event), Value(AnnouncedIp(net, forwarderIp)), 0, NormalizeNumWant(a.numWant), a.port % 0x1_0000))
  }

  // buildAnnounceRequest
  method BuildAnnounceRequest(net: Net, a: Announce, forwarderIp: Address, connectionID: nat, transactionID: nat)
    returns (buf: Bytes)
    ensures buf == Encode(PacketOf(net, a, forwarderIp, connectionID, transactionID))
  {
    hide BE, Value, ToUint32, Encode;
    var ipUint32 := Value([0, 0, 0, 0]);
    if forwarderIp != "" {
      var ip := net.parse(forwarderIp);
      if ip.Some? {
        var ip4 := To4(ip.value);
        if ip4.Some? {
          ipUint32 := Value(ip4.value);
        }
      }
    }
    var eventCode := 0;
    match a.event {
      case "completed" => eventCode := 1;
      case "started" => eventCode := 2;
      case "stopped" => eventCode := 3;
      case _ =>
    }
    var numWant := 50;
    if a.numWant > 0 {
      numWant := Min(a.numWant, MAX_NUM_WANT);
    }
    buf := BE(connectionID, 8);
    buf := buf + BE(ACTION_ANNOUNCE, 4);
    buf := buf + BE(transactionID, 4);
    ghost var p := PacketOf(net, a, forwarderIp, connectionID, transactionID);
    assert buf == HeaderBytes(p.header);
    buf := buf + a.infoHash.raw;
    buf := buf + a.peerID.raw;
    assert buf == HeaderBytes(p.header) + (p.infoHash + p.peerID);
    ghost var ids := buf;
    buf := buf + BE(a.counters.downloaded, 8);
    buf := buf + BE(a.counters.left, 8);
    buf := buf + BE(a.counters.uploaded, 8);
    Append3(ids, BE(a.counters.downloaded, 8), BE(a.counters.left, 8), BE(a.counters.uploaded, 8));
    assert buf == ids + CounterBytes(p.counters);
    ghost var counters := buf;
    buf := buf + BE(eventCode, 4);
    buf := buf + BE(ipUint32, 4);
    buf := buf + BE(0, 4);
    buf := buf + BE(ToUint32(numWant), 4);
    buf := buf + BE(a.port % 0x1_0000, 2);
    Append5(counters, BE(eventCode, 4), BE(ipUint32, 4), BE(0, 4), BE(ToUint32(numWant), 4), BE(a.port % 0x1_0000, 2));
    assert buf == counters + OptionBytes(p.options);
    EncodeParts(p);
  }

  lemma EncodeParts(p: Packet)
    ensures Encode(p) == HeaderBytes(p.header) + (p.infoHash + p.peerID) + CounterBytes(p.counters) + OptionBytes(p.options)
  {
    hide BE, HeaderBytes, CounterBytes, OptionBytes;
  }

  lemma Append3(s: Bytes, a: Bytes, b: Bytes, c: Bytes)
    ensures s + a + b + c == s + (a + b + c)
  {
  }

  lemma Append5(s: Bytes, a: Bytes, b: Bytes, c: Bytes, d: Bytes, e: Bytes)
    ensures s + a + b + c + d + e == s + (a + b + c + d + e)
  {
  }

  // The server

  datatype Received =
    | Reject(transactionID: nat, message: string)             // an error reply
    | Dropped                                                 // no reply at all
    | Accepted(packet: Packet, event: string, ip: Address, numWant: nat) // passed to ProcessAnnounce

  function EventName(code: nat): string {
    if code == 1 then "completed" else if code == 2 then "started" else if code == 3 then "stopped" else ""
  }

  function IpText(net: Net, ip: nat): Address {
    if ip == 0 then "" else net.render(BE(ip, 4))
  }

  // numwant travels as signed text, a negative number fails to parse and the default applies.
  function NumWantOf(n: int): nat {
    NormalizeNumWant(if n < 0 then 0 else n)
  }

  function Outcome(net: Net, data: Bytes): Received {
    if |data| < 20 then Reject(if |data| >= 16 then Value(data[12..16]) else 0, "Announce request too short")
    else if Value(data[8..12]) != ACTION_ANNOUNCE then Reject(Value(data[12..16]), "Invalid action")
    else if |data| < PACKET_SIZE then Dropped
    else
      var p := Decode(data);
      Accepted(p, EventName(p.options.event), IpText(net, p.options.ip), NumWantOf(p.options.numWant))
  }

  lemma Within(data: Bytes, from: nat, to: nat, i: nat, j: nat)
    requires from <= to <= |data| && i <= j <= to - from
    ensures data[from..to][i..j] == data[from + i..from + j]
  {
    var a, b := data[from..to][i..j], data[from + i..from + j];
    assert |a| == |b| && forall k :: 0 <= k < |a| ==> a[k] == data[from + i + k] == b[k];
  }

  // bytes.Reader, read one fixed-size field at a time.
  class Reader {
    const data: Bytes
    var pos: nat

    constructor (data: Bytes)
      ensures this.data == data && pos == 0
    {
      this.data, pos := data, 0;
    }

    method Read(width: nat) returns (field: Option<Bytes>)
      requires pos <= |data|
      modifies this
      ensures pos <= |data|
      ensures field == if old(pos) + width <= |data| then Some(data[old(pos)..old(pos) + width]) else None
      ensures field.Some? ==> pos == old(pos) + width
    {
      if pos + width > |data| {
        pos := |data|;
        return None;
      }
      pos := pos + width;
      return Some(data[pos - width..pos]);
    }

    method ReadHeader() returns (h: Option<Header>)
      requires pos + 16 <= |data|
      modifies this
      ensures h == Some(HeaderOf(data[old(pos)..old(pos) + 16])) && pos == old(pos) + 16
    {
      hide BE, Value;
      ghost var at := pos;
      var connectionID := Read(8);
      var action := Read(4);
      var transactionID := Read(4);
      Within(data, at, at + 16, 0, 8);
      Within(data, at, at + 16, 8, 12);
      Within(data, at, at + 16, 12, 16);
      return Some(Header(Value(connectionID.value), Value(action.value), Value(transactionID.value)));
    }

    method ReadCounters() returns (c: Option<Counters>)
      requires pos <= |data|
      modifies this
      ensures pos <= |data|
      ensures c == if old(pos) + 24 <= |data| then Some(CountersOf(data[old(pos)..old(pos) + 24])) else None
      ensures c.Some? ==> pos == old(pos) + 24
    {
      hide BE, Value;
      ghost var at := pos;
      var downloaded := Read(8);
      if downloaded.None? { return None; }
      var left := Read(8);
      if left.None? { return None; }
      var uploaded := Read(8);
      if uploaded.None? { return None; }
      Within(data, at, at + 24, 0, 8);
      Within(data, at, at + 24, 8, 16);
      Within(data, at, at + 24, 16, 24);
      return Some(Counters(Value(downloaded.value), Value(left.value), Value(uploaded.value)));
    }

    method ReadOptions() returns (o: Option<Options>)
      requires pos <= |data|
      modifies this
      ensures o == if old(pos) + 18 <= |data| then Some(OptionsOf(data[old(pos)..old(pos) + 18])) else None
    {
      hide BE, Value;
      ghost var at := pos;
      var event := Read(4);
      if event.None? { return None; }
      var ip := Read(4);
      if ip.None? { return None; }
      var key := Read(4);
      if key.None? { return None; }
      var numWant := Read(4);
      if numWant.None? { return None; }
      var port := Read(2);
      if port.None? { return None; }
      Within(data, at, at + 18, 0, 4);
      Within(data, at, at + 18, 4, 8);
      Within(data, at, at + 18, 8, 12);
      Within(data, at, at + 18, 12, 16);
      Within(data, at, at + 18, 16, 18);
      return Some(Options(Value(event.value), Value(ip.value), Value(key.value), ToInt32(Value(numWant.value)), Value(port.value)));
    }
  }

  // handleAnnounce, up to the call of ProcessAnnounce.
  method HandleAnnounce(net: Net, data: Bytes) returns (received: Received)
    ensures received == Outcome(net, data)
  {
    hide BE, Value, CountersOf, OptionsOf;
    if |data| < 20 {
      var transactionID := 0;
      if |data| >= 16 {
        transactionID := Value(data[12..16]);
      }
      return Reject(transactionID, "Announce request too short");
    }
    var reader := new Reader(data);
    var header := reader.ReadHeader();
    assert data[..16][8..12] == data[8..12] && data[..16][12..16] == data[12..16];
    if header.value.action != ACTION_ANNOUNCE {
      return Reject(header.value.transactionID, "Invalid action");
    }
    var infoHash := reader.Read(20);
    if infoHash.None? { return Dropped; }
    var peerID := reader.Read(20);
    if peerID.None? { return Dropped; }
    var counters := reader.ReadCounters();
    if counters.None? { return Dropped; }
    var options := reader.ReadOptions();
    if options.None? { return Dropped; }
    var event := "";
    match options.value.event {
      case 1 => event := "completed";
      case 2 => event := "started";
      case 3 => event := "stopped";
      case _ =>
    }
    var ip := "";
    if options.value.ip != 0 {
      ip := net.render(BE(options.value.ip, 4));
    }
    return Accepted(Packet(header.value, infoHash.value, peerID.value, counters.value, options.value), event, ip,
                    NumWantOf(options.value.numWant));
  }

  // The server receives what the client was asked to announce: identifiers, counters, event name, port,
  // the configured address and the same number of peers wanted.
  lemma AnnounceArrives(net: Net, a: Announce, forwarderIp: Address, connectionID: nat, transactionID: nat)
    requires a.Made() && net.Sound() && connectionID < Range(8) && transactionID < Range(4)
    ensures var p := PacketOf(net, a, forwarderIp, connectionID, transactionID);
            var ip4 := AnnouncedIp(net, forwarderIp);
            && |Encode(p)| == PACKET_SIZE
            && Outcome(net, Encode(p)) ==
               Accepted(p, a.event, if ip4 == [0, 0, 0, 0] then "" else net.render(ip4), NormalizeNumWant(a.numWant))
            && p.options.port == a.port
  {
    hide BE, Value, Range, Encode, Outcome, AnnouncedIp, EventCode, EventName, NumWantOf, IpText;
    var p := PacketOf(net, a, forwarderIp, connectionID, transactionID);
    var ip4 := AnnouncedIp(net, forwarderIp);
    Ranges();
    AnnouncedIpFits(net, forwarderIp);
    EventBack(a.event);
    NumWantBack(a.numWant);
    PacketRoundTrip(p);
    PrintedIsAccepted(net, p);
  }

  lemma EventBack(event: string)
    requires event in ["", "started", "stopped", "completed"]
    ensures EventCode(event) <= 3 && EventName(EventCode(event)) == event
  {
  }

  // Client and server normalise alike, so the second time changes nothing.
  lemma NumWantBack(numWant: nat)
    ensures NumWantOf(NormalizeNumWant(numWant)) == NormalizeNumWant(numWant)
  {
  }

  // Four zero bytes stand for no address.
  lemma AnnouncedIpFits(net: Net, ip: Address)
    requires net.Sound()
    ensures var ip4 := AnnouncedIp(net, ip);
            Value(ip4) < Range(4) && IpText(net, Value(ip4)) == if ip4 == [0, 0, 0, 0] then "" else net.render(ip4)
  {
    hide BE, Value, Range;
    var ip4 := AnnouncedIp(net, ip);
    ZeroValue();
    BEOfValue(ip4);
    BEOfValue([0, 0, 0, 0]);
  }

  lemma PrintedIsAccepted(net: Net, p: Packet)
    requires Encodable(p) && p.header.action == ACTION_ANNOUNCE
    ensures Outcome(net, Encode(p)) ==
            Accepted(p, EventName(p.options.event), IpText(net, p.options.ip), NumWantOf(p.options.numWant))
  {
    hide BE, Value, Range, Encode, EventName, IpText, NumWantOf, CountersOf, OptionsOf;
    PacketRoundTrip(p);
    HeaderPart(Encode(p));
  }

  lemma ZeroValue()
    ensures Value([0, 0, 0, 0]) == 0
  {
    assert [0, 0, 0, 0][..3] == [0, 0, 0];
    assert Value([0, 0, 0]) == 0 by {
      assert [0, 0, 0][..2] == [0, 0];
      assert [0, 0][..1] == [0];
      assert [0][..0] == [];
    }
  }

  lemma HeaderPart(data: Bytes)
    requires |data| >= 20
    ensures HeaderOf(data[..16]).action == Value(data[8..12])
    ensures HeaderOf(data[..16]).transactionID == Value(data[12..16])
  {
    assert data[..16][8..12] == data[8..12] && data[..16][12..16] == data[12..16];
  }

  // A packet is accepted exactly when it is long enough and says announce. Shorter announces of 20 bytes
  // or more get no reply.
  lemma AcceptedIff(net: Net, data: Bytes)
    ensures Outcome(net, data).Accepted? <==> |data| >= PACKET_SIZE && Decode(data).header.action == ACTION_ANNOUNCE
    ensures Outcome(net, data).Dropped? <==> 20 <= |data| < PACKET_SIZE && Value(data[8..12]) == ACTION_ANNOUNCE
  {
    hide BE, Value, CountersOf, OptionsOf, EventName, IpText, NumWantOf;
    if |data| >= PACKET_SIZE {
      HeaderPart(data);
    }
  }

  // Two accepted packets that decode alike agree on their first 98 bytes.
  lemma AcceptedDeterminesBytes(net: Net, a: Bytes, b: Bytes)
    requires Outcome(net, a).Accepted? && Outcome(net, b).Accepted? && Outcome(net, a).packet == Outcome(net, b).packet
    ensures a[..PACKET_SIZE] == b[..PACKET_SIZE]
  {
    hide BE, Value, HeaderOf, CountersOf, OptionsOf, Encode;
    PacketBack(a);
    PacketBack(b);
  }

  // Bytes at their places in the packet

  // BEP 15's offsets of an announce request.
  lemma PacketLayout(p: Packet)
    requires |p.infoHash| == 20 && |p.peerID| == 20
    ensures var bs := Encode(p);
            && |bs| == 98
            && bs[0..8] == BE(p.header.connectionID, 8) && bs[8..12] == BE(p.header.action, 4)
            && bs[12..16] == BE(p.header.transactionID, 4)
            && bs[16..36] == p.infoHash && bs[36..56] == p.peerID
            && bs[56..64] == BE(p.counters.downloaded, 8) && bs[64..72] == BE(p.counters.left, 8)
            && bs[72..80] == BE(p.counters.uploaded, 8)
            && bs[80..84] == BE(p.options.event, 4) && bs[84..88] == BE(p.options.ip, 4)
            && bs[88..92] == BE(p.options.key, 4) && bs[92..96] == BE(ToUint32(p.options.numWant), 4)
            && bs[96..98] == BE(p.options.port, 2)
  {
    hide BE, ToUint32, HeaderBytes, CounterBytes, OptionBytes;
    var bs := Encode(p);
    HeaderAt(p.header);
    CountersAt(p.counters);
    OptionsAt(p.options);
    assert bs[0..16] == HeaderBytes(p.header) && bs[16..36] == p.infoHash && bs[36..56] == p.peerID;
    assert bs[56..80] == CounterBytes(p.counters) && bs[80..98] == OptionBytes(p.options);
    Within(bs, 0, 16, 0, 8);
    Within(bs, 0, 16, 8, 12);
    Within(bs, 0, 16, 12, 16);
    Within(bs, 56, 80, 0, 8);
    Within(bs, 56, 80, 8, 16);
    Within(bs, 56, 80, 16, 24);
    Within(bs, 80, 98, 0, 4);
    Within(bs, 80, 98, 4, 8);
    Within(bs, 80, 98, 8, 12);
    Within(bs, 80, 98, 12, 16);
    Within(bs, 80, 98, 16, 18);
  }

  lemma HeaderAt(h: Header)
    ensures var bs := HeaderBytes(h);
            && |bs| == 16 && bs[0..8] == BE(h.connectionID, 8) && bs[8..12] == BE(h.action, 4)
            && bs[12..16] == BE(h.transactionID, 4)
  {
    hide BE;
  }

  lemma CountersAt(c: Counters)
    ensures var bs := CounterBytes(c);
            |bs| == 24 && bs[0..8] == BE(c.downloaded, 8) && bs[8..16] == BE(c.left, 8) && bs[16..24] == BE(c.uploaded, 8)
  {
    hide BE;
  }

  lemma OptionsAt(o: Options)
    ensures var bs := OptionBytes(o);
            && |bs| == 18 && bs[0..4] == BE(o.event, 4) && bs[4..8] == BE(o.ip, 4) && bs[8..12] == BE(o.key, 4)
            && bs[12..16] == BE(ToUint32(o.numWant), 4) && bs[16..18] == BE(o.port, 2)
  {
    hide BE, ToUint32;
  }

  // What a tracker finds in the packet of a forwarded announce: action 1, the event's code, the configured
  // address if it is an IPv4 address, no key, and 50 peers wanted unless the client asked for 1 to 200.
  lemma ForwardedBytes(net: Net, a: Announce, forwarderIp: Address, connectionID: nat, transactionID: nat)
    requires a.Made() && net.Sound()
    ensures var bs := Encode(PacketOf(net, a, forwarderIp, connectionID, transactionID));
            var ip := net.parse(forwarderIp);
            && |bs| == 98
            && bs[0..8] == BE(connectionID, 8) && bs[8..12] == [0, 0, 0, 1] && bs[12..16] == BE(transactionID, 4)
            && bs[16..36] == a.infoHash.raw && bs[36..56] == a.peerID.raw
            && bs[56..64] == BE(a.counters.downloaded, 8) && bs[64..72] == BE(a.counters.left, 8)
            && bs[72..80] == BE(a.counters.uploaded, 8)
            && (a.event == "" ==> bs[80..84] == [0, 0, 0, 0])
            && (a.event == "completed" ==> bs[80..84] == [0, 0, 0, 1])
            && (a.event == "started" ==> bs[80..84] == [0, 0, 0, 2])
            && (a.event == "stopped" ==> bs[80..84] == [0, 0, 0, 3])
            && (forwarderIp != "" && ip.Some? && ip.value[..12] == V4_PREFIX ==> bs[84..88] == ip.value[12..])
            && (forwarderIp == "" || ip.None? || ip.value[..12] != V4_PREFIX ==> bs[84..88] == [0, 0, 0, 0])
            && bs[88..92] == [0, 0, 0, 0]
            && (a.numWant == 0 ==> bs[92..96] == [0, 0, 0, 50])
            && (1 <= a.numWant <= 200 ==> bs[92..96] == [0, 0, 0, a.numWant])
            && (a.numWant > 200 ==> bs[92..96] == [0, 0, 0, 200])
            && bs[96..98] == [a.port / 256, a.port % 256]
  {
    hide BE, Value, Encode, EventCode, AnnouncedIp, NormalizeNumWant, ToUint32, Net.Sound;
    PacketLayout(PacketOf(net, a, forwarderIp, connectionID, transactionID));
    ConstantBytes();
    PortBytes(a.port);
    EventBytes(a.event);
    AddressSent(net, forwarderIp);
    WantedBytes(a.numWant);
  }

  lemma ConstantBytes()
    ensures BE(ACTION_ANNOUNCE, 4) == [0, 0, 0, 1] && BE(0, 4) == [0, 0, 0, 0]
  {
    hide BE;
    FieldBytes(1);
    FieldBytes(0);
  }

  lemma PortBytes(port: int)
    requires 0 <= port <= 65535
    ensures BE(port % 0x1_0000, 2) == [port / 256, port % 256]
  {
    hide BE;
    FieldBytes(port % 0x1_0000);
  }

  lemma EventBytes(event: string)
    ensures event == "completed" ==> BE(EventCode(event), 4) == [0, 0, 0, 1]
    ensures event == "started" ==> BE(EventCode(event), 4) == [0, 0, 0, 2]
    ensures event == "stopped" ==> BE(EventCode(event), 4) == [0, 0, 0, 3]
    ensures event !in ["completed", "started", "stopped"] ==> BE(EventCode(event), 4) == [0, 0, 0, 0]
  {
    hide BE;
    FieldBytes(EventCode(event));
  }

  lemma AddressSent(net: Net, forwarderIp: Address)
    requires net.Sound()
    ensures var ip, sent := net.parse(forwarderIp), BE(Value(AnnouncedIp(net, forwarderIp)), 4);
            && (forwarderIp != "" && ip.Some? && ip.value[..12] == V4_PREFIX ==> sent == ip.value[12..])
            && (forwarderIp == "" || ip.None? || ip.value[..12] != V4_PREFIX ==> sent == [0, 0, 0, 0])
  {
    hide BE, Value;
    BEOfValue(AnnouncedIp(net, forwarderIp));
  }

  lemma WantedBytes(numWant: nat)
    ensures var sent := BE(ToUint32(NormalizeNumWant(numWant)), 4);
            && (numWant == 0 ==> sent == [0, 0, 0, 50])
            && (1 <= numWant <= 200 ==> sent == [0, 0, 0, numWant])
            && (numWant > 200 ==> sent == [0, 0, 0, 200])
  {
    hide BE;
    FieldBytes(NormalizeNumWant(numWant));
  }

  // What the server answers to a packet it does not pass on, the transaction ID taken from its bytes.
  lemma RefusedBytes(net: Net, data: Bytes)
    ensures |data| < 16 ==> Outcome(net, data) == Reject(0, "Announce request too short")
    ensures 16 <= |data| < 20 ==> Outcome(net, data) == Reject(Value(data[12..16]), "Announce request too short")
    ensures |data| >= 20 && data[8..12] != [0, 0, 0, 1] ==> Outcome(net, data) == Reject(Value(data[12..16]), "Invalid action")
    ensures 20 <= |data| < 98 && data[8..12] == [0, 0, 0, 1] ==> Outcome(net, data) == Dropped
  {
    hide BE, Value, Decode, EventName, IpText, NumWantOf;
    if |data| >= 20 {
      BEOfValue(data[8..12]);
      FieldBytes(ACTION_ANNOUNCE);
      LowByte(1);
      assert data[8..12] == [0, 0, 0, 1] ==> Value(data[8..12]) == 1;
      assert Value(data[8..12]) == 1 ==> data[8..12] == [0, 0, 0, 1];
    }
  }

  lemma LowByte(b: Byte)
    ensures Value([0, 0, 0, b]) == b
  {
    assert [0, 0, 0, b][..3] == [0, 0, 0];
    assert [0, 0, 0][..2] == [0, 0];
    assert [0, 0][..1] == [0];
    assert [0][..0] == [];
    assert Value([0]) == 0;
    assert Value([0, 0]) == 0;
    assert Value([0, 0, 0]) == 0;
  }

  // And what it passes on, byte by byte.
  lemma AcceptedBytes(net: Net, data: Bytes)
    requires |data| >= 98 && data[8..12] == [0, 0, 0, 1]
    ensures var got, event, wanted := Outcome(net, data), data[80..84], Value(data[92..96]);
            && got.Accepted?
            && got.packet.infoHash == data[16..36] && got.packet.peerID == data[36..56]
            && got.packet.counters == Counters(Value(data[56..64]), Value(data[64..72]), Value(data[72..80]))
            && got.packet.options.port == Value(data[96..98])
            && (event == [0, 0, 0, 1] ==> got.event == "completed")
            && (event == [0, 0, 0, 2] ==> got.event == "started")
            && (event == [0, 0, 0, 3] ==> got.event == "stopped")
            && (event !in [[0, 0, 0, 1], [0, 0, 0, 2], [0, 0, 0, 3]] ==> got.event == "")
            && got.ip == (if data[84..88] == [0, 0, 0, 0] then "" else net.render(data[84..88]))
            && (wanted == 0 || wanted >= 0x8000_0000 ==> got.numWant == 50)
            && (1 <= wanted <= 200 ==> got.numWant == wanted)
            && (200 < wanted < 0x8000_0000 ==> got.numWant == 200)
  {
    hide BE, Value;
    LowByte(1);
    Within(data, 56, 80, 0, 8);
    Within(data, 56, 80, 8, 16);
    Within(data, 56, 80, 16, 24);
    Within(data, 80, 98, 0, 4);
    Within(data, 80, 98, 4, 8);
    Within(data, 80, 98, 12, 16);
    Within(data, 80, 98, 16, 18);
    BEOfValue(data[80..84]);
    BEOfValue(data[84..88]);
    BEOfValue(data[92..96]);
    Ranges();
    FieldBytes(Value(data[80..84]));
    FieldBytes(Value(data[84..88]));
    LowByte(0);
    LowByte(2);
    LowByte(3);
  }
}
