// The compact peer lists of BEP 23 and BEP 7: responseCompacted.go in both directions.
module CompactPeers {
  import opened Types
  import opened Wire
  import opened Addresses
  import opened UdpReply

  // Peers with an IPv4 address, and peers with only an IPv6 one, in their original order.
  function OfFamily(net: Net, peers: seq<Peer>, v4: bool): seq<Peer> {
    if peers == [] then []
    else
      var rest, last := OfFamily(net, peers[..|peers| - 1], v4), peers[|peers| - 1];
      if net.parse(last.ip).Some? && net.IPv4(last.ip).Some? == v4 then rest + [last] else rest
  }

  function List4(net: Net, peers: seq<Peer>): Bytes {
    Pack(EndpointsOf(net, OfFamily(net, peers, true), false))
  }

  function List6(net: Net, peers: seq<Peer>): Bytes {
    Pack(EndpointsOf(net, OfFamily(net, peers, false), true))
  }

  lemma AnotherPeer(net: Net, peers: seq<Peer>, p: Peer)
    ensures List4(net, peers + [p]) ==
            List4(net, peers) + if net.IPv4(p.ip).Some? then Record(Endpoint(net.IPv4(p.ip).value, p.port % 0x1_0000)) else []
    ensures List6(net, peers + [p]) ==
            List6(net, peers) + if net.IPv4(p.ip).None? && net.IPv6(p.ip).Some?
                                then Record(Endpoint(net.IPv6(p.ip).value, p.port % 0x1_0000)) else []
  {
    hide BE, To4;
    assert (peers + [p])[..|peers|] == peers;
  }

  class ResponseCompacted {
    var Peers4: Bytes
    var Peers6: Bytes

    constructor (peers4: Bytes, peers6: Bytes)
      ensures Peers4 == peers4 && Peers6 == peers6
    {
      Peers4, Peers6 := peers4, peers6;
    }

    // A peer goes to the first list that can hold it; one without an address goes nowhere.
    method ReloadPeers(net: Net, peers: seq<Peer>)
      modifies this
      ensures Peers4 == List4(net, peers) && Peers6 == List6(net, peers)
    {
      hide BE, List4, List6, Net.IPv4;
      var peers4, peers6 := [], [];
      assert List4(net, []) == [] && List6(net, []) == [] by { NoPeers(net); }
      for k := 0 to |peers|
        invariant peers4 == List4(net, peers[..k]) && peers6 == List6(net, peers[..k])
      {
        var peer := peers[k];
        AnotherPeer(net, peers[..k], peer);
        assert peers[..k + 1] == peers[..k] + [peer];
        var ip4 := net.IPv4(peer.ip);
        if ip4.Some? {
          peers4 := peers4 + ip4.value + BE(peer.port % 0x1_0000, 2);
          continue;
        }
        var ip6 := net.IPv6(peer.ip);
        if ip6.Some? {
          peers6 := peers6 + ip6.value + BE(peer.port % 0x1_0000, 2);
        }
      }
      assert peers[..|peers|] == peers;
      Peers4, Peers6 := peers4, peers6;
    }

    method Peers(net: Net) returns (peers: seq<Peer>)
      ensures peers == PeersOf(net, Unpack(Peers4, 4)) + PeersOf(net, Unpack(Peers6, 16))
    {
      var v4 := ParsePeers(net, Peers4, 4);
      var v6 := ParsePeers(net, Peers6, 16);
      return v4 + v6;
    }
  }

  lemma NoPeers(net: Net)
    ensures List4(net, []) == [] && List6(net, []) == []
  {
  }

  // peers4Parse and peers6Parse: read an address, read a port, stop at the first short read.
  method ParsePeers(net: Net, list: Bytes, size: nat) returns (peers: seq<Peer>)
    requires 0 < size
    ensures peers == PeersOf(net, Unpack(list, size))
  {
    hide Value;
    peers := [];
    var buf := list;
    ghost var es := [];
    while true
      invariant peers == PeersOf(net, es) && es + Unpack(buf, size) == Unpack(list, size)
      decreases |buf|
    {
      ghost var all := buf;
      if |buf| < size {
        break;
      }
      var ipBytes := buf[..size];
      buf := buf[size..];
      if |buf| < 2 {
        assert Unpack(all, size) == [];
        return;
      }
      var portBytes := buf[..2];
      buf := buf[2..];
      assert portBytes == all[size..size + 2] && buf == all[size + 2..];
      peers := peers + [Peer(PeerID([]), net.render(ipBytes), Value(portBytes))];
      es := es + [Endpoint(ipBytes, Value(portBytes))];
    }
  }

  // Encoding, then decoding

  lemma {:induction false} OneFamily(net: Net, peers: seq<Peer>, v4: bool)
    ensures AllOfFamily(net, OfFamily(net, peers, v4), !v4)
  {
    if peers != [] {
      OneFamily(net, peers[..|peers| - 1], v4);
    }
  }

  // Positions of the peers of one family.
  ghost function FamilyAt(net: Net, peers: seq<Peer>, v4: bool): seq<nat> {
    if peers == [] then []
    else
      var rest, last := FamilyAt(net, peers[..|peers| - 1], v4), peers[|peers| - 1];
      if net.parse(last.ip).Some? && net.IPv4(last.ip).Some? == v4 then rest + [|peers| - 1] else rest
  }

  // A family is exactly the peers whose text parses to 16 bytes with the IPv4 prefix, or without it, in order.
  lemma {:induction false} FamilyIs(net: Net, peers: seq<Peer>, v4: bool)
    requires net.Sound()
    ensures var ix, kept := FamilyAt(net, peers, v4), OfFamily(net, peers, v4);
            && |ix| == |kept|
            && (forall i :: 0 <= i < |ix| ==> ix[i] < |peers| && kept[i] == peers[ix[i]])
            && (forall i, j :: 0 <= i < j < |ix| ==> ix[i] < ix[j])
            && (forall k :: 0 <= k < |peers| ==>
                  var ip := net.parse(peers[k].ip);
                  (k in ix <==> ip.Some? && (ip.value[..12] == V4_PREFIX) == v4))
  {
    hide Net.Sound;
    if peers != [] {
      FamilyIs(net, peers[..|peers| - 1], v4);
      if net.parse(peers[|peers| - 1].ip).Some? {
        PrefixDecides(net, peers[|peers| - 1].ip);
      }
    }
  }

  lemma PrefixDecides(net: Net, a: Address)
    requires net.Sound() && net.parse(a).Some?
    ensures |net.parse(a).value| == 16
    ensures net.IPv4(a).Some? <==> net.parse(a).value[..12] == V4_PREFIX
    ensures net.IPv4(a).Some? ==> net.IPv4(a).value == net.parse(a).value[12..]
  {
  }

  // Decoding an encoded list yields its IPv4 peers in order, then its IPv6 peers in order, without identifiers.
  lemma DecodeEncoded(net: Net, peers: seq<Peer>)
    requires net.Sound()
    ensures PeersOf(net, Unpack(List4(net, peers), 4)) + PeersOf(net, Unpack(List6(net, peers), 16)) ==
            Delivered(net, OfFamily(net, peers, true)) + Delivered(net, OfFamily(net, peers, false))
  {
    DecodeFamily(net, peers, true);
    DecodeFamily(net, peers, false);
  }

  lemma DecodeFamily(net: Net, peers: seq<Peer>, v4: bool)
    requires net.Sound()
    ensures PeersOf(net, Unpack(Pack(EndpointsOf(net, OfFamily(net, peers, v4), !v4)), AddressSize(!v4))) ==
            Delivered(net, OfFamily(net, peers, v4))
  {
    hide Net.Sound, Pack, Unpack, OfFamily, PeersOf, Delivered, AllOfFamily, EndpointsOf;
    var kept := OfFamily(net, peers, v4);
    var es := EndpointsOf(net, kept, !v4);
    OneFamily(net, peers, v4);
    EndpointsFit(net, kept, !v4);
    UnpackPack(es, AddressSize(!v4), []);
    assert Pack(es) + [] == Pack(es);
    EndpointsDelivered(net, kept, !v4);
  }

  // Decoding, then encoding

  // The IPv4 addresses hidden in 16-byte records, and the records that are properly IPv6.
  function MappedOnly(es: seq<Endpoint>): seq<Endpoint> {
    if es == [] then []
    else
      var rest, last := MappedOnly(es[..|es| - 1]), es[|es| - 1];
      if To4(last.ip).Some? then rest + [Endpoint(To4(last.ip).value, last.port)] else rest
  }

  function ProperIPv6(es: seq<Endpoint>): seq<Endpoint> {
    if es == [] then []
    else
      var rest, last := ProperIPv6(es[..|es| - 1]), es[|es| - 1];
      if To4(last.ip).Some? then rest else rest + [last]
  }

  lemma {:induction false} OfFamilyConcat(net: Net, a: seq<Peer>, b: seq<Peer>, v4: bool)
    ensures OfFamily(net, a + b, v4) == OfFamily(net, a, v4) + OfFamily(net, b, v4)
    decreases |b|
  {
    if b == [] {
      assert a + b == a;
    } else {
      assert (a + b)[..|a + b| - 1] == a + b[..|b| - 1];
      OfFamilyConcat(net, a, b[..|b| - 1], v4);
    }
  }

  lemma Rendered4(net: Net, ip: Bytes)
    requires net.Sound() && |ip| == 4
    ensures net.IPv4(net.render(ip)) == Some(ip)
  {
    MappedIsV4(ip);
  }

  lemma {:induction false} Reencode4(net: Net, es: seq<Endpoint>)
    requires net.Sound() && Fits(es, 4)
    ensures OfFamily(net, PeersOf(net, es), true) == PeersOf(net, es) && OfFamily(net, PeersOf(net, es), false) == []
    ensures EndpointsOf(net, PeersOf(net, es), false) == es
  {
    hide Net.Sound, Net.IPv4;
    if es != [] {
      var front, last := es[..|es| - 1], es[|es| - 1];
      Reencode4(net, front);
      Rendered4(net, last.ip);
      var ps := PeersOf(net, es);
      assert ps[..|ps| - 1] == PeersOf(net, front) && ps == PeersOf(net, front) + [ps[|ps| - 1]];
      ParsesIfIPv4(net, net.render(last.ip));
      assert es == front + [last];
    }
  }

  lemma ParsesIfIPv4(net: Net, a: Address)
    requires net.IPv4(a).Some?
    ensures net.parse(a).Some?
  {
  }

  lemma {:induction false} Reencode6(net: Net, es: seq<Endpoint>)
    requires net.Sound() && Fits(es, 16)
    ensures EndpointsOf(net, OfFamily(net, PeersOf(net, es), true), false) == MappedOnly(es)
    ensures EndpointsOf(net, OfFamily(net, PeersOf(net, es), false), true) == ProperIPv6(es)
  {
    hide Net.Sound, To4;
    if es != [] {
      var front, last := es[..|es| - 1], es[|es| - 1];
      Reencode6(net, front);
      Rendered6(net, last.ip);
      var ps, p := PeersOf(net, front), Peer(PeerID([]), net.render(last.ip), last.port);
      assert PeersOf(net, es) == ps + [p];
      OneMoreOfFamily(net, ps, p, true);
      OneMoreOfFamily(net, ps, p, false);
    }
  }

  lemma OneMoreOfFamily(net: Net, peers: seq<Peer>, p: Peer, v4: bool)
    requires net.parse(p.ip).Some? && 0 <= p.port < 0x1_0000
    ensures var kept, ip := OfFamily(net, peers, v4), To4(net.parse(p.ip).value);
            EndpointsOf(net, OfFamily(net, peers + [p], v4), !v4) ==
            EndpointsOf(net, kept, !v4) +
            if ip.Some? != v4 then [] else [Endpoint(if v4 then ip.value else net.parse(p.ip).value, p.port)]
  {
    hide To4;
    assert (peers + [p])[..|peers|] == peers;
  }

  lemma Rendered6(net: Net, ip: Bytes)
    requires net.Sound() && |ip| == 16
    ensures net.parse(net.render(ip)) == Some(ip)
  {
  }

  // What re-encoding decoded lists gives: IPv4 addresses in IPv6 clothing move to the other list.
  lemma Reencoded(net: Net, peers4: Bytes, peers6: Bytes)
    requires net.Sound()
    ensures var peers := PeersOf(net, Unpack(peers4, 4)) + PeersOf(net, Unpack(peers6, 16));
            && EndpointsOf(net, OfFamily(net, peers, true), false) == Unpack(peers4, 4) + MappedOnly(Unpack(peers6, 16))
            && EndpointsOf(net, OfFamily(net, peers, false), true) == ProperIPv6(Unpack(peers6, 16))
  {
    hide Net.Sound, OfFamily, EndpointsOf, PeersOf, Unpack, MappedOnly, ProperIPv6;
    var es4, es6 := Unpack(peers4, 4), Unpack(peers6, 16);
    var a, b := PeersOf(net, es4), PeersOf(net, es6);
    PackUnpack(peers4, 4);
    PackUnpack(peers6, 16);
    Reencode4(net, es4);
    Reencode6(net, es6);
    OfFamilyConcat(net, a, b, true);
    OfFamilyConcat(net, a, b, false);
    EndpointsConcat(net, a, OfFamily(net, b, true), false);
    assert [] + OfFamily(net, b, false) == OfFamily(net, b, false);
  }

  lemma {:induction false} ProperLength(es: seq<Endpoint>)
    ensures |ProperIPv6(es)| + |MappedOnly(es)| == |es|
    ensures (forall i :: 0 <= i < |es| ==> To4(es[i].ip).None?) <==> MappedOnly(es) == []
    ensures MappedOnly(es) == [] ==> ProperIPv6(es) == es
  {
    hide To4;
    if es != [] {
      ProperLength(es[..|es| - 1]);
      assert es == es[..|es| - 1] + [es[|es| - 1]];
    }
  }

  // Re-encoding decoded lists reproduces the whole records of both lists if and only if no record of the
  // IPv6 list is an IPv4 address in 16 bytes.
  lemma ReencodeIsExactIff(net: Net, peers4: Bytes, peers6: Bytes)
    requires net.Sound()
    ensures var peers := PeersOf(net, Unpack(peers4, 4)) + PeersOf(net, Unpack(peers6, 16));
            var es6 := Unpack(peers6, 16);
            (List4(net, peers) + Leftover(peers4, 4) == peers4 && List6(net, peers) + Leftover(peers6, 16) == peers6)
            <==> (forall i :: 0 <= i < |es6| ==> To4(es6[i].ip).None?)
  {
    hide Net.Sound, OfFamily, EndpointsOf, PeersOf, Unpack, MappedOnly, ProperIPv6, Pack, Leftover, To4;
    var es4, es6 := Unpack(peers4, 4), Unpack(peers6, 16);
    Reencoded(net, peers4, peers6);
    PackUnpack(peers4, 4);
    PackUnpack(peers6, 16);
    ProperLength(es6);
    if MappedOnly(es6) == [] {
      assert es4 + [] == es4;
    } else {
      ProperFits(es6);
      PackLength(ProperIPv6(es6), 16);
      PackLength(es6, 16);
    }
  }

  lemma {:induction false} ProperFits(es: seq<Endpoint>)
    requires Fits(es, 16)
    ensures Fits(ProperIPv6(es), 16)
  {
    if es != [] {
      ProperFits(es[..|es| - 1]);
    }
  }

  // A list with one such record does not come back.
  lemma MappedRecordMoves(net: Net, port: nat)
    requires net.Sound() && port < 0x1_0000
    ensures var e := Endpoint(Mapped([1, 2, 3, 4]), port);
            var peers := PeersOf(net, Unpack([], 4)) + PeersOf(net, Unpack(Record(e), 16));
            List4(net, peers) == Record(Endpoint([1, 2, 3, 4], port)) && List6(net, peers) == []
  {
    hide Net.Sound, OfFamily, EndpointsOf, PeersOf, BE;
    var e := Endpoint(Mapped([1, 2, 3, 4]), port);
    Reencoded(net, [], Record(e));
    MappedIsV4([1, 2, 3, 4]);
    assert [e][..0] == [];
    assert Pack([e]) + [] == Record(e);
    UnpackPack([e], 16, []);
    assert MappedOnly([e]) == [Endpoint([1, 2, 3, 4], port)] && ProperIPv6([e]) == [];
    assert Unpack([], 4) == [] && [] + MappedOnly([e]) == MappedOnly([e]);
    assert [Endpoint([1, 2, 3, 4], port)][..0] == [];
  }
}
