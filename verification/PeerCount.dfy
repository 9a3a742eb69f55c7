// Counting seeders and leechers: the announce reply (getPeersForResponse) and scrape (getScrapeStats).
module PeerCount {
  import opened Types
  import opened CacheModel
  import opened ForwarderCache

  // The local peers of one hash.
  type Swarm = map<PeerID, Request>

  ghost predicate EnumeratesPeers(order: seq<PeerID>, swarm: Swarm) {
    && (forall id :: id in order <==> id in swarm)
    && (forall i, j :: 0 <= i < j < |order| ==> order[i] != order[j])
  }

  function Visit(swarm: Swarm, order: seq<PeerID>): seq<Request>
    requires forall i :: 0 <= i < |order| ==> order[i] in swarm
  {
    seq(|order|, i requires 0 <= i < |order| => swarm[order[i]])
  }

  predicate Seeding(r: Request) {
    r.event == EVENT_COMPLETED || r.left == 0
  }

  // seenIPs and the two counters.
  datatype Tally = Tally(seen: set<Address>, seeders: nat, leechers: nat)
  {
    function Local(r: Request): Tally {
      var ip := r.AsPeer().ip;
      if ip == "" || ip in seen then this
      else if Seeding(r) then Tally(seen + {ip}, seeders + 1, leechers)
      else Tally(seen + {ip}, seeders, leechers + 1)
    }

    // Peers reported by other trackers count as seeders.
    function Upstream(p: Peer): Tally {
      if p.ip == "" || p.ip in seen then this else Tally(seen + {p.ip}, seeders + 1, leechers)
    }
  }

  const NOBODY := Tally({}, 0, 0)

  function CountLocal(rs: seq<Request>): Tally {
    if rs == [] then NOBODY else CountLocal(rs[..|rs| - 1]).Local(rs[|rs| - 1])
  }

  function CountAll(rs: seq<Request>, ps: seq<Peer>): Tally {
    if ps == [] then CountLocal(rs) else CountAll(rs, ps[..|ps| - 1]).Upstream(ps[|ps| - 1])
  }

  // The nonempty addresses of the local requests, and of the peers other trackers reported.
  function LocalIps(rs: seq<Request>): set<Address> {
    set i | 0 <= i < |rs| && rs[i].AsPeer().ip != "" :: rs[i].AsPeer().ip
  }

  function PeerIps(ps: seq<Peer>): set<Address> {
    set i | 0 <= i < |ps| && ps[i].ip != "" :: ps[i].ip
  }

  lemma LocalIpsGrow(rs: seq<Request>)
    requires rs != []
    ensures var last := rs[|rs| - 1].AsPeer().ip;
            LocalIps(rs) == LocalIps(rs[..|rs| - 1]) + if last == "" then {} else {last}
  {
    var front, last := rs[..|rs| - 1], rs[|rs| - 1].AsPeer().ip;
    forall ip | ip in LocalIps(front) || (last != "" && ip == last) ensures ip in LocalIps(rs) {
      if ip in LocalIps(front) {
        var i :| 0 <= i < |front| && front[i].AsPeer().ip != "" && front[i].AsPeer().ip == ip;
        assert rs[i] == front[i];
      }
    }
  }

  lemma PeerIpsGrow(ps: seq<Peer>)
    requires ps != []
    ensures var last := ps[|ps| - 1].ip;
            PeerIps(ps) == PeerIps(ps[..|ps| - 1]) + if last == "" then {} else {last}
  {
    var front, last := ps[..|ps| - 1], ps[|ps| - 1].ip;
    forall ip | ip in PeerIps(front) || (last != "" && ip == last) ensures ip in PeerIps(ps) {
      if ip in PeerIps(front) {
        var i :| 0 <= i < |front| && front[i].ip != "" && front[i].ip == ip;
        assert ps[i] == front[i];
      }
    }
  }

  lemma {:induction false} LocalTotal(rs: seq<Request>)
    ensures var t := CountLocal(rs);
            t.seen == LocalIps(rs) && t.seeders + t.leechers == |t.seen|
  {
    hide LocalIps;
    if rs == [] {
      assert LocalIps(rs) == {} by { NoLocalIps(); }
    } else {
      LocalTotal(rs[..|rs| - 1]);
      LocalIpsGrow(rs);
    }
  }

  lemma NoLocalIps()
    ensures LocalIps([]) == {}
  {
  }

  lemma NoPeerIps()
    ensures PeerIps([]) == {}
  {
  }

  // Everybody counted once: the total is the number of distinct nonempty addresses.
  lemma {:induction false} Total(rs: seq<Request>, ps: seq<Peer>)
    ensures var t := CountAll(rs, ps);
            t.seen == LocalIps(rs) + PeerIps(ps) && t.seeders + t.leechers == |LocalIps(rs) + PeerIps(ps)|
  {
    hide LocalIps, PeerIps, CountLocal;
    if ps == [] {
      NoPeerIps();
      LocalTotal(rs);
      assert LocalIps(rs) + {} == LocalIps(rs);
    } else {
      Total(rs, ps[..|ps| - 1]);
      PeerIpsGrow(ps);
      var last := ps[|ps| - 1].ip;
      assert LocalIps(rs) + PeerIps(ps) == (LocalIps(rs) + PeerIps(ps[..|ps| - 1])) + if last == "" then {} else {last};
    }
  }

  // The same addresses without reference to any order of visiting.
  function SwarmIps(swarm: Swarm): set<Address> {
    set id | id in swarm && swarm[id].AsPeer().ip != "" :: swarm[id].AsPeer().ip
  }

  function FreshIps(f: Forwarders, at: Clock, maxPeerAge: int): set<Address> {
    set name, i | name in f && !Expired(f[name], at(name), maxPeerAge) && 0 <= i < |f[name].peers| && f[name].peers[i].ip != ""
      :: f[name].peers[i].ip
  }

  lemma VisitedIps(swarm: Swarm, order: seq<PeerID>)
    requires EnumeratesPeers(order, swarm)
    ensures LocalIps(Visit(swarm, order)) == SwarmIps(swarm)
  {
    var rs := Visit(swarm, order);
    forall ip | ip in SwarmIps(swarm) ensures ip in LocalIps(rs) {
      var id :| id in swarm && swarm[id].AsPeer().ip != "" && swarm[id].AsPeer().ip == ip;
      var i :| 0 <= i < |order| && order[i] == id;
      assert rs[i] == swarm[id];
    }
    forall ip | ip in LocalIps(rs) ensures ip in SwarmIps(swarm) {
      var i :| 0 <= i < |rs| && rs[i].AsPeer().ip != "" && rs[i].AsPeer().ip == ip;
      assert order[i] in order && rs[i] == swarm[order[i]];
    }
  }

  ghost predicate IsFresh(f: Forwarders, order: seq<string>, at: Clock, maxPeerAge: int, p: Peer) {
    exists name :: name in order && name in f && !Expired(f[name], at(name), maxPeerAge) && p in f[name].peers
  }

  lemma {:induction false} FreshPeersAre(f: Forwarders, order: seq<string>, at: Clock, maxPeerAge: int, p: Peer)
    requires forall i :: 0 <= i < |order| ==> order[i] in f
    ensures p in FreshPeers(f, order, at, maxPeerAge) <==> IsFresh(f, order, at, maxPeerAge, p)
  {
    hide Expired;
    if order != [] {
      var front, last := order[..|order| - 1], order[|order| - 1];
      FreshPeersAre(f, front, at, maxPeerAge, p);
      assert order == front + [last];
      if IsFresh(f, front, at, maxPeerAge, p) {
        var name :| name in front && name in f && !Expired(f[name], at(name), maxPeerAge) && p in f[name].peers;
        assert name in order;
      }
    }
  }

  lemma GatheredIps(f: Forwarders, order: seq<string>, at: Clock, maxPeerAge: int)
    requires EnumeratesNames(order, f)
    ensures PeerIps(FreshPeers(f, order, at, maxPeerAge)) == FreshIps(f, at, maxPeerAge)
  {
    hide Expired, FreshPeers;
    var ps := FreshPeers(f, order, at, maxPeerAge);
    forall ip | ip in FreshIps(f, at, maxPeerAge) ensures ip in PeerIps(ps) {
      var name, i :|
        && name in f && !Expired(f[name], at(name), maxPeerAge)
        && 0 <= i < |f[name].peers| && f[name].peers[i].ip != "" && f[name].peers[i].ip == ip;
      FreshPeersAre(f, order, at, maxPeerAge, f[name].peers[i]);
      assert IsFresh(f, order, at, maxPeerAge, f[name].peers[i]);
    }
    forall ip | ip in PeerIps(ps) ensures ip in FreshIps(f, at, maxPeerAge) {
      var i :| 0 <= i < |ps| && ps[i].ip != "" && ps[i].ip == ip;
      FreshPeersAre(f, order, at, maxPeerAge, ps[i]);
      var name :| name in order && name in f && !Expired(f[name], at(name), maxPeerAge) && ps[i] in f[name].peers;
    }
  }

  // No entry expires between the two readings.
  ghost predicate SameFreshness(f: Forwarders, at: Clock, at': Clock, maxPeerAge: int) {
    forall name :: name in f ==> Expired(f[name], at(name), maxPeerAge) == Expired(f[name], at'(name), maxPeerAge)
  }

  lemma SameFreshIps(f: Forwarders, at: Clock, at': Clock, maxPeerAge: int)
    requires SameFreshness(f, at, at', maxPeerAge)
    ensures FreshIps(f, at, maxPeerAge) == FreshIps(f, at', maxPeerAge)
  {
    hide Expired;
    FreshIpsWithin(f, at, at', maxPeerAge);
    FreshIpsWithin(f, at', at, maxPeerAge);
  }

  lemma FreshIpsWithin(f: Forwarders, at: Clock, at': Clock, maxPeerAge: int)
    requires SameFreshness(f, at, at', maxPeerAge)
    ensures FreshIps(f, at, maxPeerAge) <= FreshIps(f, at', maxPeerAge)
  {
    hide Expired;
    forall ip | ip in FreshIps(f, at, maxPeerAge) ensures ip in FreshIps(f, at', maxPeerAge) {
      var name, i :|
        && name in f && !Expired(f[name], at(name), maxPeerAge)
        && 0 <= i < |f[name].peers| && f[name].peers[i].ip != "" && f[name].peers[i].ip == ip;
      assert !Expired(f[name], at'(name), maxPeerAge);
    }
  }

  // Announce and scrape agree on the total of the same snapshot, whatever orders their maps are visited in.
  lemma TotalsAgree(swarm: Swarm, f: Forwarders, at: Clock, at': Clock, maxPeerAge: int,
                    order: seq<PeerID>, names: seq<string>, order': seq<PeerID>, names': seq<string>)
    requires EnumeratesPeers(order, swarm) && EnumeratesPeers(order', swarm)
    requires EnumeratesNames(names, f) && EnumeratesNames(names', f) && SameFreshness(f, at, at', maxPeerAge)
    ensures var a := CountAll(Visit(swarm, order), FreshPeers(f, names, at, maxPeerAge));
            var b := CountAll(Visit(swarm, order'), FreshPeers(f, names', at', maxPeerAge));
            && a.seeders + a.leechers == b.seeders + b.leechers
            && a.seeders + a.leechers == |SwarmIps(swarm) + FreshIps(f, at, maxPeerAge)|
  {
    hide LocalIps, PeerIps, SwarmIps, FreshIps, CountAll, SameFreshness;
    CountedIps(swarm, f, at, maxPeerAge, order, names);
    CountedIps(swarm, f, at', maxPeerAge, order', names');
    SameFreshIps(f, at, at', maxPeerAge);
  }

  lemma CountedIps(swarm: Swarm, f: Forwarders, at: Clock, maxPeerAge: int, order: seq<PeerID>, names: seq<string>)
    requires EnumeratesPeers(order, swarm) && EnumeratesNames(names, f)
    ensures var t := CountAll(Visit(swarm, order), FreshPeers(f, names, at, maxPeerAge));
            t.seeders + t.leechers == |SwarmIps(swarm) + FreshIps(f, at, maxPeerAge)|
  {
    hide LocalIps, PeerIps, SwarmIps, FreshIps, CountAll;
    Total(Visit(swarm, order), FreshPeers(f, names, at, maxPeerAge));
    VisitedIps(swarm, order);
    GatheredIps(f, names, at, maxPeerAge);
  }

  // The split into seeders and leechers

  // No address is shared by a seeder and a leecher.
  ghost predicate Consistent(swarm: Swarm) {
    forall a, b :: a in swarm && b in swarm && swarm[a].AsPeer().ip != "" && swarm[a].AsPeer().ip == swarm[b].AsPeer().ip
      ==> (Seeding(swarm[a]) <==> Seeding(swarm[b]))
  }

  function SeedIps(rs: seq<Request>): set<Address> {
    set i | 0 <= i < |rs| && rs[i].AsPeer().ip != "" && Seeding(rs[i]) :: rs[i].AsPeer().ip
  }

  function SwarmSeedIps(swarm: Swarm): set<Address> {
    set id | id in swarm && swarm[id].AsPeer().ip != "" && Seeding(swarm[id]) :: swarm[id].AsPeer().ip
  }

  ghost predicate Agreeing(rs: seq<Request>) {
    forall i, j :: 0 <= i < |rs| && 0 <= j < |rs| && rs[i].AsPeer().ip != "" && rs[i].AsPeer().ip == rs[j].AsPeer().ip
      ==> (Seeding(rs[i]) <==> Seeding(rs[j]))
  }

  lemma SeedIpsGrow(rs: seq<Request>)
    requires rs != []
    ensures var last := rs[|rs| - 1];
            SeedIps(rs) == SeedIps(rs[..|rs| - 1]) + if last.AsPeer().ip != "" && Seeding(last) then {last.AsPeer().ip} else {}
  {
    var front, last := rs[..|rs| - 1], rs[|rs| - 1];
    forall ip | ip in SeedIps(front) || (last.AsPeer().ip != "" && Seeding(last) && ip == last.AsPeer().ip) ensures ip in SeedIps(rs) {
      if ip in SeedIps(front) {
        var i :| 0 <= i < |front| && front[i].AsPeer().ip != "" && Seeding(front[i]) && front[i].AsPeer().ip == ip;
        assert rs[i] == front[i];
      }
    }
  }

  lemma {:induction false} AgreeingSplit(rs: seq<Request>)
    requires Agreeing(rs)
    ensures CountLocal(rs).seeders == |SeedIps(rs)|
  {
    hide SeedIps, Seeding;
    if rs == [] {
      assert SeedIps(rs) == {} by { NoSeedIps(); }
    } else {
      var front, last := rs[..|rs| - 1], rs[|rs| - 1];
      assert rs == front + [last];
      assert Agreeing(front) by {
        assert forall i :: 0 <= i < |front| ==> front[i] == rs[i];
      }
      AgreeingSplit(front);
      LocalTotal(front);
      SeedIpsGrow(rs);
      if last.AsPeer().ip != "" {
        SeenBefore(front, last, rs);
      }
    }
  }

  lemma NoSeedIps()
    ensures SeedIps([]) == {}
  {
  }

  // An address seen before has the status it was seen with; a new one is in no set yet.
  lemma SeenBefore(front: seq<Request>, last: Request, rs: seq<Request>)
    requires rs == front + [last] && Agreeing(rs) && last.AsPeer().ip != ""
    ensures var ip := last.AsPeer().ip;
            && (ip in LocalIps(front) && Seeding(last) ==> ip in SeedIps(front))
            && (ip !in LocalIps(front) ==> ip !in SeedIps(front))
  {
    hide Seeding;
    var ip := last.AsPeer().ip;
    if ip in LocalIps(front) && Seeding(last) {
      var i :| 0 <= i < |front| && front[i].AsPeer().ip != "" && front[i].AsPeer().ip == ip;
      assert rs[i] == front[i] && rs[|front|] == last;
    }
  }

  lemma VisitedSeedIps(swarm: Swarm, order: seq<PeerID>)
    requires EnumeratesPeers(order, swarm)
    ensures SeedIps(Visit(swarm, order)) == SwarmSeedIps(swarm)
    ensures Consistent(swarm) ==> Agreeing(Visit(swarm, order))
  {
    hide Seeding;
    var rs := Visit(swarm, order);
    forall ip | ip in SwarmSeedIps(swarm) ensures ip in SeedIps(rs) {
      var id :| id in swarm && swarm[id].AsPeer().ip != "" && Seeding(swarm[id]) && swarm[id].AsPeer().ip == ip;
      var i :| 0 <= i < |order| && order[i] == id;
      assert rs[i] == swarm[id];
    }
    forall ip | ip in SeedIps(rs) ensures ip in SwarmSeedIps(swarm) {
      var i :| 0 <= i < |rs| && rs[i].AsPeer().ip != "" && Seeding(rs[i]) && rs[i].AsPeer().ip == ip;
      assert order[i] in order && rs[i] == swarm[order[i]];
    }
    forall i | 0 <= i < |rs| ensures order[i] in swarm && rs[i] == swarm[order[i]] {
      assert order[i] in order;
    }
  }

  // The requests that count as a seeder: those that completed or have nothing left, with the announced address,
  // or the socket's one when none was announced, that no earlier request has.
  predicate CountsAsSeeder(rs: seq<Request>, i: nat)
    requires i < |rs|
  {
    && (rs[i].event == "completed" || rs[i].left == 0)
    && var ip := if rs[i].ip != "" then rs[i].ip else rs[i].remoteAddr;
       ip != "" && forall j :: 0 <= j < i ==> (if rs[j].ip != "" then rs[j].ip else rs[j].remoteAddr) != ip
  }

  function SeederAt(rs: seq<Request>): set<nat> {
    set i: nat | i < |rs| && CountsAsSeeder(rs, i)
  }

  lemma SeederAtGrows(rs: seq<Request>)
    requires rs != []
    ensures SeederAt(rs) == SeederAt(rs[..|rs| - 1]) + if CountsAsSeeder(rs, |rs| - 1) then {|rs| - 1} else {}
  {
    var front := rs[..|rs| - 1];
    forall i: nat | i < |front| ensures CountsAsSeeder(rs, i) <==> CountsAsSeeder(front, i) {
      assert forall j :: 0 <= j <= i ==> rs[j] == front[j];
    }
  }

  lemma NewSeeder(front: seq<Request>, last: Request)
    ensures var ip := last.AsPeer().ip;
            CountsAsSeeder(front + [last], |front|) <==> Seeding(last) && ip != "" && ip !in LocalIps(front)
  {
    var rs, ip := front + [last], last.AsPeer().ip;
    assert forall j :: 0 <= j < |front| ==> rs[j] == front[j];
    if ip !in LocalIps(front) && ip != "" {
      assert forall j :: 0 <= j < |front| ==> front[j].AsPeer().ip != ip;
    }
  }

  // The loop over the local peers counts these, and every other distinct address as a leecher.
  lemma {:induction false} LocalSplit(rs: seq<Request>)
    ensures CountLocal(rs).seeders == |SeederAt(rs)|
    ensures CountLocal(rs).leechers == |LocalIps(rs)| - |SeederAt(rs)|
  {
    hide SeederAt, LocalIps, CountsAsSeeder, Seeding;
    LocalTotal(rs);
    if rs == [] {
      assert SeederAt(rs) == {} by { NoSeeder(); }
    } else {
      var front, last := rs[..|rs| - 1], rs[|rs| - 1];
      assert rs == front + [last];
      LocalSplit(front);
      LocalTotal(front);
      SeederAtGrows(rs);
      NewSeeder(front, last);
      assert |rs| - 1 !in SeederAt(front) by { Below(front); }
    }
  }

  lemma NoSeeder()
    ensures SeederAt([]) == {}
  {
  }

  lemma Below(rs: seq<Request>)
    ensures |rs| !in SeederAt(rs)
  {
  }

  // The addresses counted, from the fields of the local requests and of the unexpired entries.
  lemma CountedAddresses(swarm: Swarm, f: Forwarders, at: Clock, maxPeerAge: int, ip: Address)
    ensures ip in SwarmIps(swarm) <==>
            ip != "" && exists id :: id in swarm && ip == if swarm[id].ip != "" then swarm[id].ip else swarm[id].remoteAddr
    ensures var age := if maxPeerAge > 0 then maxPeerAge else 10_800 * SECOND;
            ip in FreshIps(f, at, maxPeerAge) <==>
            ip != "" && exists name :: name in f && at(name) - f[name].lastUpdate < age && Reports(f[name].peers, ip)
  {
    if ip in FreshIps(f, at, maxPeerAge) {
      var name, i :| name in f && !Expired(f[name], at(name), maxPeerAge) && 0 <= i < |f[name].peers| && f[name].peers[i].ip == ip;
      assert Reports(f[name].peers, ip);
    }
  }

  predicate Reports(peers: seq<Peer>, ip: Address) {
    exists i :: 0 <= i < |peers| && peers[i].ip == ip
  }

  // Upstream peers add the addresses that no local peer has.
  lemma {:induction false} UpstreamAdds(rs: seq<Request>, ps: seq<Peer>)
    ensures CountAll(rs, ps).seeders == CountLocal(rs).seeders + |PeerIps(ps) - LocalIps(rs)|
    ensures CountAll(rs, ps).leechers == CountLocal(rs).leechers
  {
    hide LocalIps, PeerIps, CountLocal;
    if ps == [] {
      NoPeerIps();
      assert {} - LocalIps(rs) == {};
    } else {
      var front, last := ps[..|ps| - 1], ps[|ps| - 1].ip;
      UpstreamAdds(rs, front);
      Total(rs, front);
      PeerIpsGrow(ps);
      if last != "" && last !in LocalIps(rs) + PeerIps(front) {
        assert PeerIps(ps) - LocalIps(rs) == (PeerIps(front) - LocalIps(rs)) + {last};
      } else {
        assert PeerIps(ps) - LocalIps(rs) == PeerIps(front) - LocalIps(rs);
      }
    }
  }

  // The number of seeders reported does not depend on the order of either map.
  ghost predicate SplitIsFixed(swarm: Swarm, f: Forwarders, at: Clock, maxPeerAge: int) {
    forall o, o', n, n' ::
      EnumeratesPeers(o, swarm) && EnumeratesPeers(o', swarm) && EnumeratesNames(n, f) && EnumeratesNames(n', f) ==>
        CountAll(Visit(swarm, o), FreshPeers(f, n, at, maxPeerAge)).seeders ==
        CountAll(Visit(swarm, o'), FreshPeers(f, n', at, maxPeerAge)).seeders
  }

  lemma SeedersCounted(swarm: Swarm, f: Forwarders, at: Clock, maxPeerAge: int, o: seq<PeerID>, n: seq<string>)
    requires EnumeratesPeers(o, swarm) && EnumeratesNames(n, f)
    ensures CountAll(Visit(swarm, o), FreshPeers(f, n, at, maxPeerAge)).seeders ==
            CountLocal(Visit(swarm, o)).seeders + |FreshIps(f, at, maxPeerAge) - SwarmIps(swarm)|
  {
    hide CountAll, CountLocal, LocalIps, PeerIps, FreshIps, SwarmIps, FreshPeers;
    UpstreamAdds(Visit(swarm, o), FreshPeers(f, n, at, maxPeerAge));
    VisitedIps(swarm, o);
    GatheredIps(f, n, at, maxPeerAge);
  }

  lemma ConsistentFixes(swarm: Swarm, f: Forwarders, at: Clock, maxPeerAge: int)
    requires Consistent(swarm)
    ensures SplitIsFixed(swarm, f, at, maxPeerAge)
  {
    hide CountAll, CountLocal, FreshPeers, FreshIps, SwarmIps, SeedIps, SwarmSeedIps, Consistent, Agreeing;
    forall o, o', n, n' |
      EnumeratesPeers(o, swarm) && EnumeratesPeers(o', swarm) && EnumeratesNames(n, f) && EnumeratesNames(n', f)
      ensures CountAll(Visit(swarm, o), FreshPeers(f, n, at, maxPeerAge)).seeders ==
              CountAll(Visit(swarm, o'), FreshPeers(f, n', at, maxPeerAge)).seeders
    {
      SeedersCounted(swarm, f, at, maxPeerAge, o, n);
      SeedersCounted(swarm, f, at, maxPeerAge, o', n');
      LocalSeeders(swarm, o);
      LocalSeeders(swarm, o');
    }
  }

  lemma LocalSeeders(swarm: Swarm, o: seq<PeerID>)
    requires Consistent(swarm) && EnumeratesPeers(o, swarm)
    ensures CountLocal(Visit(swarm, o)).seeders == |SwarmSeedIps(swarm)|
  {
    hide CountLocal, SeedIps, SwarmSeedIps, Consistent, Agreeing;
    VisitedSeedIps(swarm, o);
    AgreeingSplit(Visit(swarm, o));
  }

  lemma TwoCounted(a: Request, b: Request)
    ensures CountLocal([a, b]) == NOBODY.Local(a).Local(b)
  {
    assert [a, b][..1] == [a] && [a][..0] == [];
    assert CountLocal([]) == NOBODY;
    assert CountLocal([a]) == NOBODY.Local(a);
  }

  // The first of two conflicting requests decides, whatever follows.
  lemma {:induction false} FirstDecides(a: Request, b: Request, rest: seq<Request>)
    requires a.AsPeer().ip == b.AsPeer().ip != "" && Seeding(a) && !Seeding(b)
    ensures CountLocal([a, b] + rest).seen == CountLocal([b, a] + rest).seen
    ensures CountLocal([a, b] + rest).seeders == CountLocal([b, a] + rest).seeders + 1
  {
    if rest == [] {
      assert [a, b] + rest == [a, b] && [b, a] + rest == [b, a];
      TwoCounted(a, b);
      TwoCounted(b, a);
    } else {
      var front := rest[..|rest| - 1];
      FirstDecides(a, b, front);
      assert ([a, b] + rest)[..|rest| + 1] == [a, b] + front && ([b, a] + rest)[..|rest| + 1] == [b, a] + front;
    }
  }

  lemma Enumerate<T(!new)>(items: set<T>) returns (order: seq<T>)
    ensures forall x :: x in order <==> x in items
    ensures forall i, j :: 0 <= i < j < |order| ==> order[i] != order[j]
  {
    order := [];
    var todo := items;
    while todo != {}
      invariant todo <= items
      invariant forall x :: x in order <==> x in items && x !in todo
      invariant forall i, j :: 0 <= i < j < |order| ==> order[i] != order[j]
    {
      var x :| x in todo;
      order, todo := order + [x], todo - {x};
    }
  }

  // The two peers first, in this order, then the others.
  lemma VisitFrom(swarm: Swarm, a: PeerID, b: PeerID, rest: seq<PeerID>)
    requires a in swarm && b in swarm && a != b
    requires forall id :: id in rest <==> id in swarm.Keys - {a, b}
    requires forall i, j :: 0 <= i < j < |rest| ==> rest[i] != rest[j]
    ensures EnumeratesPeers([a, b] + rest, swarm)
    ensures Visit(swarm, [a, b] + rest) == [swarm[a], swarm[b]] + Visit(swarm, rest)
  {
    var o := [a, b] + rest;
    assert forall id :: id in o <==> id == a || id == b || id in rest;
    assert forall i :: 2 <= i < |o| ==> o[i] == rest[i - 2] && o[i] in rest;
  }

  lemma ConflictVaries(swarm: Swarm, f: Forwarders, at: Clock, maxPeerAge: int, a: PeerID, b: PeerID)
    requires a in swarm && b in swarm && Seeding(swarm[a]) && !Seeding(swarm[b])
    requires swarm[a].AsPeer().ip != "" && swarm[a].AsPeer().ip == swarm[b].AsPeer().ip
    ensures !SplitIsFixed(swarm, f, at, maxPeerAge)
  {
    hide Seeding, CountAll, CountLocal, FreshPeers, FreshIps, SwarmIps, EnumeratesPeers, Visit;
    var rest := Enumerate(swarm.Keys - {a, b});
    var names := Enumerate(f.Keys);
    VisitFrom(swarm, a, b, rest);
    assert {a, b} == {b, a};
    VisitFrom(swarm, b, a, rest);
    FirstDecides(swarm[a], swarm[b], Visit(swarm, rest));
    SeedersCounted(swarm, f, at, maxPeerAge, [a, b] + rest, names);
    SeedersCounted(swarm, f, at, maxPeerAge, [b, a] + rest, names);
  }

  // The reported split does not depend on the maps' orders if and only if no address is shared by a seeder
  // and a leecher.
  lemma SplitIsFixedIff(swarm: Swarm, f: Forwarders, at: Clock, maxPeerAge: int)
    ensures SplitIsFixed(swarm, f, at, maxPeerAge) <==> Consistent(swarm)
  {
    hide SplitIsFixed, Seeding;
    if Consistent(swarm) {
      ConsistentFixes(swarm, f, at, maxPeerAge);
    }
    if SplitIsFixed(swarm, f, at, maxPeerAge) {
      forall a, b | a in swarm && b in swarm && swarm[a].AsPeer().ip != "" && swarm[a].AsPeer().ip == swarm[b].AsPeer().ip
        ensures Seeding(swarm[a]) <==> Seeding(swarm[b])
      {
        if Seeding(swarm[a]) && !Seeding(swarm[b]) { ConflictVaries(swarm, f, at, maxPeerAge, a, b); }
        if Seeding(swarm[b]) && !Seeding(swarm[a]) { ConflictVaries(swarm, f, at, maxPeerAge, b, a); }
      }
    }
  }

  // The loops as written

  ghost predicate CountsLocal(swarm: Swarm, t: Tally) {
    exists order :: EnumeratesPeers(order, swarm) && t == CountLocal(Visit(swarm, order))
  }

  method CountLocalPeers(swarm: Swarm) returns (seenIPs: set<Address>, seeders: nat, leechers: nat)
    ensures CountsLocal(swarm, Tally(seenIPs, seeders, leechers))
  {
    seenIPs, seeders, leechers := {}, 0, 0;
    ghost var order: seq<PeerID> := [];
    var todo := swarm.Keys;
    while todo != {}
      invariant todo <= swarm.Keys
      invariant forall id :: id in order <==> id in swarm && id !in todo
      invariant forall i, j :: 0 <= i < j < |order| ==> order[i] != order[j]
      invariant forall i :: 0 <= i < |order| ==> order[i] in swarm
      invariant Tally(seenIPs, seeders, leechers) == CountLocal(Visit(swarm, order))
      decreases todo
    {
      var id :| id in todo;
      todo := todo - {id};
      var peerRequest := swarm[id];
      ghost var before := order;
      order := order + [id];
      assert Visit(swarm, order)[..|before|] == Visit(swarm, before);
      var ipStr := peerRequest.AsPeer().ip;
      if ipStr != "" {
        if ipStr !in seenIPs {
          seenIPs := seenIPs + {ipStr};
          if peerRequest.event == EVENT_COMPLETED || peerRequest.left == 0 {
            seeders := seeders + 1;
          } else {
            leechers := leechers + 1;
          }
        }
      }
    }
    assert EnumeratesPeers(order, swarm) && Tally(seenIPs, seeders, leechers) == CountLocal(Visit(swarm, order));
  }

  method CountUpstreamPeers(peers: seq<Peer>, seen: set<Address>, counted: nat, ghost rs: seq<Request>, ghost leechers: nat)
    returns (seenIPs: set<Address>, seeders: nat)
    requires Tally(seen, counted, leechers) == CountLocal(rs)
    ensures Tally(seenIPs, seeders, leechers) == CountAll(rs, peers)
  {
    seenIPs, seeders := seen, counted;
    for k := 0 to |peers|
      invariant Tally(seenIPs, seeders, leechers) == CountAll(rs, peers[..k])
    {
      assert peers[..k + 1][..k] == peers[..k];
      var ipStr := peers[k].ip;
      if ipStr != "" {
        if ipStr !in seenIPs {
          seenIPs := seenIPs + {ipStr};
          seeders := seeders + 1;
        }
      }
    }
    assert peers[..|peers|] == peers;
  }

  function SwarmOf(requests: map<InfoHash, Swarm>, h: InfoHash): Swarm {
    if h in requests then requests[h] else map[]
  }

  // The counts come from some order of visiting the local peers and the forwarders.
  ghost predicate IsCount(requests: map<InfoHash, Swarm>, cache: ForwarderStorage, h: InfoHash, at: Clock, seeders: nat, leechers: nat)
    reads cache
  {
    exists order, names ::
      && EnumeratesPeers(order, SwarmOf(requests, h)) && EnumeratesNames(names, At(cache.Entries, h))
      && var t := CountAll(Visit(SwarmOf(requests, h), order), FreshPeers(At(cache.Entries, h), names, at, cache.maxPeerAge));
         seeders == t.seeders && leechers == t.leechers
  }

  ghost function DistinctAddresses(requests: map<InfoHash, Swarm>, cache: ForwarderStorage, h: InfoHash, at: Clock): set<Address>
    reads cache
  {
    SwarmIps(SwarmOf(requests, h)) + FreshIps(At(cache.Entries, h), at, cache.maxPeerAge)
  }

  lemma CountIsTotal(requests: map<InfoHash, Swarm>, cache: ForwarderStorage, h: InfoHash, at: Clock, seeders: nat, leechers: nat)
    requires IsCount(requests, cache, h, at, seeders, leechers)
    ensures seeders + leechers == |DistinctAddresses(requests, cache, h, at)|
  {
    hide CountAll, Visit, FreshPeers, SwarmIps, FreshIps;
    var order, names :|
      && EnumeratesPeers(order, SwarmOf(requests, h)) && EnumeratesNames(names, At(cache.Entries, h))
      && var t := CountAll(Visit(SwarmOf(requests, h), order), FreshPeers(At(cache.Entries, h), names, at, cache.maxPeerAge));
         seeders == t.seeders && leechers == t.leechers;
    CountedIps(SwarmOf(requests, h), At(cache.Entries, h), at, cache.maxPeerAge, order, names);
  }

  // Every local peer once, in some order.
  ghost predicate ListsSwarm(swarm: Swarm, peers: seq<Peer>) {
    exists order ::
      && EnumeratesPeers(order, swarm) && |peers| == |order|
      && forall i :: 0 <= i < |order| ==> order[i] in swarm && ListedAs(swarm[order[i]], peers[i])
  }

  // A request is listed under its own identifier and port, at its announced address or else its socket's.
  predicate ListedAs(r: Request, p: Peer) {
    p.peerID == r.peerID && p.port == r.port && p.ip == if r.ip != "" then r.ip else r.remoteAddr
  }

  // Storage.GetPeers, in the order of its own visit.
  method GetPeers(swarm: Swarm) returns (peers: seq<Peer>)
    ensures ListsSwarm(swarm, peers)
  {
    peers := [];
    ghost var order: seq<PeerID> := [];
    var todo := swarm.Keys;
    while todo != {}
      invariant todo <= swarm.Keys && |peers| == |order|
      invariant forall id :: id in order <==> id in swarm && id !in todo
      invariant forall i, j :: 0 <= i < j < |order| ==> order[i] != order[j]
      invariant forall i :: 0 <= i < |order| ==> order[i] in swarm && ListedAs(swarm[order[i]], peers[i])
      decreases todo
    {
      var id :| id in todo;
      todo, order, peers := todo - {id}, order + [id], peers + [swarm[id].AsPeer()];
    }
    assert EnumeratesPeers(order, swarm);
  }

  // getPeersForResponse takes the store's lock twice, and the peers it lists can differ from those it counts.
  method GetPeersForResponse(listed: map<InfoHash, Swarm>, counted: map<InfoHash, Swarm>, cache: ForwarderStorage,
                             h: InfoHash, at: Clock)
    returns (seeders: nat, leechers: nat, peers: seq<Peer>)
    ensures IsCount(counted, cache, h, at, seeders, leechers)
    ensures seeders + leechers == |DistinctAddresses(counted, cache, h, at)|
    ensures exists n :: 0 <= n <= |peers| && ListsSwarm(SwarmOf(listed, h), peers[..n]) &&
              Gathers(At(cache.Entries, h), peers[n..], at, cache.maxPeerAge)
  {
    hide DistinctAddresses, IsCount, Gathers, CountsLocal, ListsSwarm;
    var localPeers := GetPeers(SwarmOf(listed, h));
    var forwarderPeers := cache.GetAllPeers(h, at);
    peers := localPeers + forwarderPeers;
    assert peers[..|localPeers|] == localPeers && peers[|localPeers|..] == forwarderPeers;
    seeders, leechers := CountSwarm(counted, cache, h, at, forwarderPeers);
  }

  // The two counting loops.
  method CountSwarm(requests: map<InfoHash, Swarm>, cache: ForwarderStorage, h: InfoHash, at: Clock, forwarderPeers: seq<Peer>)
    returns (seeders: nat, leechers: nat)
    requires Gathers(At(cache.Entries, h), forwarderPeers, at, cache.maxPeerAge)
    ensures IsCount(requests, cache, h, at, seeders, leechers)
    ensures seeders + leechers == |DistinctAddresses(requests, cache, h, at)|
  {
    hide CountAll, CountLocal, DistinctAddresses, FreshPeers;
    var swarm := SwarmOf(requests, h);
    var seenIPs;
    seenIPs, seeders, leechers := CountLocalPeers(swarm);
    ghost var order :| EnumeratesPeers(order, swarm) && Tally(seenIPs, seeders, leechers) == CountLocal(Visit(swarm, order));
    ghost var names :| EnumeratesNames(names, At(cache.Entries, h)) &&
                       forwarderPeers == FreshPeers(At(cache.Entries, h), names, at, cache.maxPeerAge);
    seenIPs, seeders := CountUpstreamPeers(forwarderPeers, seenIPs, seeders, Visit(swarm, order), leechers);
    assert Tally(seenIPs, seeders, leechers) ==
           CountAll(Visit(swarm, order), FreshPeers(At(cache.Entries, h), names, at, cache.maxPeerAge));
    CountIsTotal(requests, cache, h, at, seeders, leechers);
  }

  datatype ScrapeStats = ScrapeStats(complete: nat, incomplete: nat, downloaded: nat)

  predicate ValidHash(h: InfoHash) {
    |h.raw| == 20
  }

  // getScrapeStats: the same total as an announce for every valid hash, and nothing for the others.
  method GetScrapeStats(requests: map<InfoHash, Swarm>, cache: ForwarderStorage, hashes: seq<InfoHash>, at: Clock)
    returns (stats: map<InfoHash, ScrapeStats>)
    ensures forall h :: h in stats <==> h in hashes && ValidHash(h)
    ensures forall h :: h in stats ==>
      && IsCount(requests, cache, h, at, stats[h].complete, stats[h].incomplete)
      && stats[h].complete + stats[h].incomplete == |DistinctAddresses(requests, cache, h, at)|
      && stats[h].downloaded == stats[h].complete
  {
    hide IsCount, DistinctAddresses, Gathers;
    stats := map[];
    for k := 0 to |hashes|
      invariant forall h :: h in stats <==> h in hashes[..k] && ValidHash(h)
      invariant forall h :: h in stats ==>
        && IsCount(requests, cache, h, at, stats[h].complete, stats[h].incomplete)
        && stats[h].complete + stats[h].incomplete == |DistinctAddresses(requests, cache, h, at)|
        && stats[h].downloaded == stats[h].complete
    {
      var h := hashes[k];
      assert hashes[..k + 1] == hashes[..k] + [h];
      if !ValidHash(h) {
        continue;
      }
      var forwarderPeers := cache.GetAllPeers(h, at);
      var complete, incomplete := CountSwarm(requests, cache, h, at, forwarderPeers);
      stats := stats[h := ScrapeStats(complete, incomplete, complete)];
    }
    assert hashes[..|hashes|] == hashes;
  }
}
