// filterPeers: the peers one announce reply lists.
module PeerFilter {
  import opened Types
  import opened Addresses
  import opened UdpRequest

  const DECIMALS := "0123456789"

  // Decimal text, as %d prints it.
  function Decimal(n: nat): (text: string)
    ensures text != "" && forall i :: 0 <= i < |text| ==> '0' <= text[i] <= '9'
  {
    (if n < 10 then "" else Decimal(n / 10)) + [DECIMALS[n % 10]]
  }

  function Itoa(n: int): (text: string)
    ensures ':' !in text
  {
    if n < 0 then "-" + Decimal(-n) else Decimal(n)
  }

  lemma DecimalsDiffer(i: nat, j: nat)
    requires i < 10 && j < 10 && DECIMALS[i] == DECIMALS[j]
    ensures i == j
  {
  }

  lemma LastDecimal(n: nat)
    ensures var t := Decimal(n);
            t[|t| - 1] == DECIMALS[n % 10] && t[..|t| - 1] == if n < 10 then "" else Decimal(n / 10)
  {
  }

  lemma {:induction false} DecimalInjective(a: nat, b: nat)
    requires Decimal(a) == Decimal(b)
    ensures a == b
  {
    hide Decimal;
    LastDecimal(a);
    LastDecimal(b);
    DecimalsDiffer(a % 10, b % 10);
    if a >= 10 && b >= 10 {
      DecimalInjective(a / 10, b / 10);
    }
  }

  lemma ItoaInjective(a: int, b: int)
    requires Itoa(a) == Itoa(b)
    ensures a == b
  {
    hide Decimal;
    var s, t := Itoa(a), Itoa(b);
    assert s[0] == t[0];
    if a < 0 {
      assert s[1..] == Decimal(-a) && t[1..] == Decimal(-b);
      DecimalInjective(-a, -b);
    } else {
      DecimalInjective(a, b);
    }
  }

  // The key of the `seen` map.
  function KeyText(p: Peer): string {
    p.ip + ":" + Itoa(p.port)
  }

  predicate SameEndpoint(a: Peer, b: Peer) {
    a.ip == b.ip && a.port == b.port
  }

  lemma NotLonger(a: Peer, b: Peer)
    requires KeyText(a) == KeyText(b)
    ensures |Itoa(b.port)| <= |Itoa(a.port)|
  {
    var k, s := KeyText(a), Itoa(a.port);
    assert k[|k| - 1 - |s|] == ':';
  }

  // The key identifies the endpoint, though the text of an IPv6 address is full of colons.
  lemma KeyInjective(a: Peer, b: Peer)
    ensures KeyText(a) == KeyText(b) <==> SameEndpoint(a, b)
  {
    if KeyText(a) == KeyText(b) {
      NotLonger(a, b);
      NotLonger(b, a);
      var k, n := KeyText(a), |a.ip|;
      assert |b.ip| == n;
      assert k[..n] == a.ip && k[..n] == b.ip;
      assert k[n + 1..] == Itoa(a.port) && k[n + 1..] == Itoa(b.port);
      ItoaInjective(a.port, b.port);
    }
  }

  // What decides whether a peer may be listed: not the requester itself, and of the receiver's family
  // (0 for both, else 4 or 6).
  datatype Wanted = Wanted(net: Net, family: int, requester: Peer)
  {
    predicate Admits(p: Peer) {
      && p.peerID != requester.peerID && !SameEndpoint(p, requester)
      && (family == 0 || (net.parse(p.ip).Some? && To4(net.parse(p.ip).value).Some? == (family == 4)))
    }
  }

  function Admissible(w: Wanted, peers: seq<Peer>): seq<Peer> {
    if peers == [] then []
    else
      var rest := Admissible(w, peers[..|peers| - 1]);
      if w.Admits(peers[|peers| - 1]) then rest + [peers[|peers| - 1]] else rest
  }

  predicate Lists(peers: seq<Peer>, p: Peer) {
    exists i :: 0 <= i < |peers| && SameEndpoint(peers[i], p)
  }

  function FirstPerEndpoint(peers: seq<Peer>): seq<Peer> {
    if peers == [] then []
    else
      var rest := FirstPerEndpoint(peers[..|peers| - 1]);
      if Lists(rest, peers[|peers| - 1]) then rest else rest + [peers[|peers| - 1]]
  }

  function Take(n: nat, peers: seq<Peer>): seq<Peer> {
    if |peers| <= n then peers else peers[..n]
  }

  function MaxPeers(numWant: nat): nat {
    if numWant == 0 then DEFAULT_NUM_WANT else numWant
  }

  function Filtered(w: Wanted, peers: seq<Peer>, numWant: nat): seq<Peer> {
    Take(MaxPeers(numWant), FirstPerEndpoint(Admissible(w, peers)))
  }

  // The loop stops early, which changes nothing: what is listed never changes afterwards.
  lemma {:induction false} Extends(w: Wanted, peers: seq<Peer>, k: nat)
    requires k <= |peers|
    ensures FirstPerEndpoint(Admissible(w, peers[..k])) <= FirstPerEndpoint(Admissible(w, peers))
    decreases |peers| - k
  {
    if k == |peers| {
      assert peers[..k] == peers;
    } else {
      Extends(w, peers, k + 1);
      assert peers[..k + 1][..k] == peers[..k];
    }
  }

  method FilterPeers(net: Net, family: int, peers: seq<Peer>, requester: Peer, numWant: nat) returns (filtered: seq<Peer>)
    ensures filtered == Filtered(Wanted(net, family, requester), peers, numWant)
  {
    hide KeyText, FirstPerEndpoint, Admissible, SameEndpoint, Keys, Lists;
    ghost var w := Wanted(net, family, requester);
    if |peers| == 0 {
      NothingListed(w);
      return peers;
    }
    var maxPeers := numWant;
    if maxPeers == 0 {
      maxPeers := DEFAULT_NUM_WANT;
    }
    var seen: set<string> := {};
    filtered := [];
    NothingListed(w);
    assert Keys([]) == {} by { NoKeys(); }
    var k := 0;
    while k < |peers|
      invariant k <= |peers| && |filtered| < maxPeers
      invariant filtered == FirstPerEndpoint(Admissible(w, peers[..k]))
      invariant seen == Keys(filtered)
    {
      var peer := peers[k];
      ghost var before := peers[..k];
      ListMore(w, peers, k);
      k := k + 1;
      if peer.peerID == requester.peerID {
        continue;
      }
      if peer.ip == requester.ip && peer.port == requester.port {
        assert !w.Admits(peer) by { Requester(w, peer); }
        continue;
      }
      if family != 0 {
        var ip := net.parse(peer.ip);
        if ip.None? || To4(ip.value).Some? != (family == 4) {
          continue;
        }
      }
      assert w.Admits(peer) by { Requester(w, peer); }
      var key := KeyText(peer);
      SeenIffListed(filtered, peer);
      if key in seen {
        continue;
      }
      KeysGrow(filtered, peer);
      seen := seen + {key};
      filtered := filtered + [peer];
      if |filtered| >= maxPeers {
        Extends(w, peers, k);
        assert filtered == FirstPerEndpoint(Admissible(w, peers[..k]));
        return;
      }
    }
    assert peers[..k] == peers;
  }

  lemma NothingListed(w: Wanted)
    ensures FirstPerEndpoint(Admissible(w, [])) == []
  {
  }

  lemma Requester(w: Wanted, p: Peer)
    ensures p.ip == w.requester.ip && p.port == w.requester.port <==> SameEndpoint(p, w.requester)
  {
  }

  lemma ListMore(w: Wanted, peers: seq<Peer>, k: nat)
    requires k < |peers|
    ensures var before := FirstPerEndpoint(Admissible(w, peers[..k]));
            FirstPerEndpoint(Admissible(w, peers[..k + 1])) ==
            if w.Admits(peers[k]) && !Lists(before, peers[k]) then before + [peers[k]] else before
  {
    assert peers[..k + 1][..k] == peers[..k];
  }

  function Keys(peers: seq<Peer>): set<string> {
    set i | 0 <= i < |peers| :: KeyText(peers[i])
  }

  lemma NoKeys()
    ensures Keys([]) == {}
  {
  }

  lemma KeysGrow(peers: seq<Peer>, p: Peer)
    ensures Keys(peers + [p]) == Keys(peers) + {KeyText(p)}
  {
    hide KeyText;
    forall key | key in Keys(peers) + {KeyText(p)} ensures key in Keys(peers + [p]) {
      if key in Keys(peers) {
        var i :| 0 <= i < |peers| && KeyText(peers[i]) == key;
        assert (peers + [p])[i] == peers[i];
      } else {
        assert (peers + [p])[|peers|] == p;
      }
    }
  }

  lemma SeenIffListed(peers: seq<Peer>, p: Peer)
    ensures KeyText(p) in Keys(peers) <==> Lists(peers, p)
  {
    hide KeyText, SameEndpoint;
    forall i | 0 <= i < |peers| ensures KeyText(peers[i]) == KeyText(p) <==> SameEndpoint(peers[i], p) {
      KeyInjective(peers[i], p);
    }
  }

  // What the result means

  // Positions of the listed peers.
  ghost function ListedAt(w: Wanted, peers: seq<Peer>): seq<nat> {
    if peers == [] then []
    else
      var front, last := peers[..|peers| - 1], peers[|peers| - 1];
      var rest := ListedAt(w, front);
      if w.Admits(last) && !Lists(FirstPerEndpoint(Admissible(w, front)), last) then rest + [|peers| - 1] else rest
  }

  // Listed peers stand in their original order, each the first admissible one with its endpoint.
  lemma {:induction false} ListedInOrder(w: Wanted, peers: seq<Peer>)
    ensures var ix, out := ListedAt(w, peers), FirstPerEndpoint(Admissible(w, peers));
            && |ix| == |out|
            && (forall i :: 0 <= i < |ix| ==> ix[i] < |peers| && out[i] == peers[ix[i]] && w.Admits(out[i]))
            && (forall i, j :: 0 <= i < j < |ix| ==> ix[i] < ix[j])
            && (forall i, k :: 0 <= i < |ix| && 0 <= k < ix[i] && w.Admits(peers[k]) ==> !SameEndpoint(peers[k], out[i]))
    decreases |peers|
  {
    hide Admissible, FirstPerEndpoint, SameEndpoint, Lists, Wanted.Admits;
    if peers == [] {
      NothingListed(w);
    } else {
      var n := |peers| - 1;
      ListedInOrder(w, peers[..n]);
      ListMore(w, peers, n);
      if !Lists(FirstPerEndpoint(Admissible(w, peers[..n])), peers[n]) {
        NoneBefore(w, peers[..n], peers[n]);
      }
      assert peers[..n + 1] == peers;
    }
  }

  lemma NoneBefore(w: Wanted, peers: seq<Peer>, p: Peer)
    requires !Lists(FirstPerEndpoint(Admissible(w, peers)), p)
    ensures forall k :: 0 <= k < |peers| && w.Admits(peers[k]) ==> !SameEndpoint(peers[k], p)
  {
    hide Admissible, FirstPerEndpoint, Wanted.Admits;
    var out := FirstPerEndpoint(Admissible(w, peers));
    EveryEndpointListed(w, peers);
    forall k | 0 <= k < |peers| && w.Admits(peers[k]) ensures !SameEndpoint(peers[k], p) {
      var i :| 0 <= i < |out| && SameEndpoint(out[i], peers[k]);
    }
  }

  // Every admissible endpoint is listed before the limit applies.
  lemma {:induction false} EveryEndpointListed(w: Wanted, peers: seq<Peer>)
    ensures forall k :: 0 <= k < |peers| && w.Admits(peers[k]) ==> Lists(FirstPerEndpoint(Admissible(w, peers)), peers[k])
    decreases |peers|
  {
    hide Admissible, FirstPerEndpoint, Wanted.Admits;
    if peers != [] {
      var n := |peers| - 1;
      EveryEndpointListed(w, peers[..n]);
      ListMore(w, peers, n);
      assert peers[..n + 1] == peers;
      var before, after := FirstPerEndpoint(Admissible(w, peers[..n])), FirstPerEndpoint(Admissible(w, peers));
      assert before <= after;
      forall k | 0 <= k < |peers| && w.Admits(peers[k]) ensures Lists(after, peers[k]) {
        if k < n {
          assert peers[..n][k] == peers[k];
          var i :| 0 <= i < |before| && SameEndpoint(before[i], peers[k]);
          assert after[i] == before[i];
        } else if Lists(before, peers[n]) {
          var i :| 0 <= i < |before| && SameEndpoint(before[i], peers[n]);
          assert after[i] == before[i];
        } else {
          assert after[|before|] == peers[n];
        }
      }
    }
  }

  // No endpoint twice, never more than asked for, and a short reply has every admissible endpoint.
  lemma FilteredIs(w: Wanted, peers: seq<Peer>, numWant: nat)
    ensures var out := Filtered(w, peers, numWant);
            && |out| <= MaxPeers(numWant)
            && (forall i :: 0 <= i < |out| ==> out[i] in peers && w.Admits(out[i]))
            && (forall i, j :: 0 <= i < j < |out| ==> !SameEndpoint(out[i], out[j]))
            && (|out| < MaxPeers(numWant) ==> forall k :: 0 <= k < |peers| && w.Admits(peers[k]) ==> Lists(out, peers[k]))
  {
    ListedInOrder(w, peers);
    EveryEndpointListed(w, peers);
  }

  // What a reply may list: not the requester's identifier, not its address and port, and the family asked for.
  predicate MayList(net: Net, family: int, requester: Peer, p: Peer) {
    && p.peerID != requester.peerID && (p.ip != requester.ip || p.port != requester.port)
    && (family == 0 || (net.parse(p.ip).Some? && (V4_PREFIX <= net.parse(p.ip).value) == (family == 4)))
  }

  lemma AdmitsIs(w: Wanted, p: Peer)
    requires w.net.Sound()
    ensures w.Admits(p) <==> MayList(w.net, w.family, w.requester, p)
  {
  }

  // Before the limit, an endpoint is listed at or before each of its admissible peers.
  lemma ListedBy(w: Wanted, peers: seq<Peer>, k: nat) returns (j: nat)
    requires k < |peers| && w.Admits(peers[k])
    ensures var ix, all := ListedAt(w, peers), FirstPerEndpoint(Admissible(w, peers));
            j < |all| == |ix| && SameEndpoint(all[j], peers[k]) && ix[j] <= k
  {
    hide FirstPerEndpoint, Admissible, ListedAt, Wanted.Admits;
    ListedInOrder(w, peers);
    EveryEndpointListed(w, peers);
    var all := FirstPerEndpoint(Admissible(w, peers));
    j :| 0 <= j < |all| && SameEndpoint(all[j], peers[k]);
  }

  // A reply lists 50 peers if none were asked for, else at most as many as asked; only peers it may list, in
  // their order and by their first endpoint; and it leaves one out only when earlier ones fill it.
  lemma ReplyLists(net: Net, family: int, requester: Peer, peers: seq<Peer>, numWant: nat)
    requires net.Sound()
    ensures var w, limit := Wanted(net, family, requester), if numWant == 0 then 50 else numWant;
            var ix, out := ListedAt(w, peers), Filtered(w, peers, numWant);
            && |out| <= limit && |out| <= |ix|
            && (forall i :: 0 <= i < |out| ==> ix[i] < |peers| && out[i] == peers[ix[i]])
            && (forall i, j :: 0 <= i < j < |ix| ==> ix[i] < ix[j])
            && (forall i :: 0 <= i < |out| ==> MayList(net, family, requester, out[i]))
            && (forall k :: 0 <= k < |peers| && MayList(net, family, requester, peers[k]) ==>
                  ListedOrFull(peers, ix[..|out|], limit, k))
  {
    hide Net.Sound, FirstPerEndpoint, Admissible, ListedAt, Wanted.Admits, MayList;
    var w := Wanted(net, family, requester);
    var ix, all, out := ListedAt(w, peers), FirstPerEndpoint(Admissible(w, peers)), Filtered(w, peers, numWant);
    ListedInOrder(w, peers);
    forall i | 0 <= i < |out| ensures MayList(net, family, requester, out[i]) {
      AdmitsIs(w, out[i]);
    }
    forall k | 0 <= k < |peers| && MayList(net, family, requester, peers[k])
      ensures ListedOrFull(peers, ix[..|out|], MaxPeers(numWant), k)
    {
      AdmitsIs(w, peers[k]);
      var j := ListedBy(w, peers, k);
      assert j < |out| ==> ix[..|out|][j] == ix[j];
    }
  }

  // A listed position at or before k has k's address and port, or the reply is full of positions before k.
  ghost predicate ListedOrFull(peers: seq<Peer>, listed: seq<nat>, limit: nat, k: nat)
    requires k < |peers|
  {
    || (exists i :: 0 <= i < |listed| && listed[i] <= k && peers[listed[i]].ip == peers[k].ip && peers[listed[i]].port == peers[k].port)
    || (|listed| == limit && forall i :: 0 <= i < |listed| ==> listed[i] < k)
  }
}
