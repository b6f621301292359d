/** Whose routes a router stores: over any run, the peer and the path of a stored route are those of
    an injected advertisement, or the path is empty and the peer is a router one hop away
    (src/components/bgp/bgp_process.rs, src/components/advertisement.rs). */
module Attribution {
  import opened Wrappers
  import opened RouterMaskMaps
  import opened IpNetworks
  import opened Routes
  import opened RibEntries
  import opened Ribs
  import opened RibRuns
  import opened Advertisements
  import opened RibUpdates
  import opened Interfaces
  import opened BgpProcesses
  import opened Networks
  import opened Provenance
  import opened Topologies
  import opened NetworkManagers
  import opened Wirings

  /** Where an advertisement can be: on its way out of a router, in a channel, or received. */
  datatype Spot = Outgoing(node: nat) | OnChannel(channel: nat) | Incoming(node: nat)

  ghost predicate IsAt(net: Net, spot: Spot, ad: Advertisement) {
    match spot
    case Outgoing(q) =>
      q < |net.nodes| && (ad in net.nodes[q].ads || exists i :: 0 <= i < |net.nodes[q].sessions|
                                                      && ad in net.nodes[q].sessions[i].port.outgoing)
    case OnChannel(c) => c < |net.channels| && ad in net.channels[c].messages
    case Incoming(r) =>
      r < |net.nodes| && (ad in net.nodes[r].inbox || exists i :: 0 <= i < |net.nodes[r].sessions|
                                                        && ad in net.nodes[r].sessions[i].port.incoming)
  }

  /** The advertisement was injected by one of the steps. */
  ghost predicate Injected(steps: seq<Step>, ad: Advertisement) {
    exists s <- steps :: (s.InjectAtNode? || s.InjectInChannel?) && s.ad == ad
  }

  /** It has the form of those that a router generates: its own address as peer and host, no path. */
  predicate Authored(ip: Printed, ad: Advertisement) {
    ad.peer == Some(ip.address) && ad.host == ip.text && ad.path == None
  }

  /** Step `n` of the run generated the advertisement at router `q`, out of its changes then. */
  ghost predicate GeneratedIn(net: Net, steps: seq<Step>, n: nat, q: nat, ad: Advertisement)
    requires NetOk(net)
  {
    && n < |steps| && steps[n] == Generate(q) && Reached(net, steps[..n]).Some?
    && q < |Reached(net, steps[..n]).value.nodes| && ad == OwnAd(Reached(net, steps[..n]).value.nodes[q])
  }

  /** Router `q` is one hop away from router `r`. */
  ghost predicate OneHop(net: Net, q: nat, c: nat, r: nat) {
    HasLink(net, AtNode(q), InChannel(c)) && HasLink(net, InChannel(c), AtNode(r))
  }

  /** Router `q` is at most one hop away from the place. */
  ghost predicate Near(net: Net, q: nat, spot: Spot) {
    match spot
    case Outgoing(r) => q == r
    case OnChannel(c) => HasLink(net, AtNode(q), InChannel(c))
    case Incoming(r) => exists c :: OneHop(net, q, c, r)
  }

  ghost predicate GeneratedNear(net: Net, steps: seq<Step>, spot: Spot, ad: Advertisement)
    requires NetOk(net)
  {
    exists n: nat, q: nat :: Near(net, q, spot) && GeneratedIn(net, steps, n, q, ad)
  }

  // ---- one step ----

  /** An advertisement moves out of a router, over a channel, into a router, and no further. */
  ghost predicate Precedes(net: Net, from: Spot, to: Spot) {
    || from == to
    || (from.Outgoing? && to.OnChannel? && HasLink(net, AtNode(from.node), InChannel(to.channel)))
    || (from.OnChannel? && to.Incoming? && HasLink(net, InChannel(from.channel), AtNode(to.node)))
  }

  lemma ReceiveBrings(net: Net, r: nat, i: nat, spot: Spot, ad: Advertisement) returns (from: Spot)
    requires NetOk(net) && Possible(net, ReceiveFrom(r, i)) && IsAt(Take(net, ReceiveFrom(r, i)), spot, ad)
    ensures IsAt(net, from, ad) && Precedes(net, from, spot)
  {
    EndOfOk(net, r, i);
    var s := net.nodes[r].sessions[i];
    ReceiveInvents(EndOf(net, s), ad);
    WiringAt(net.nodes[r], i);
    from := spot;
    if spot == Incoming(r) && !IsAt(net, spot, ad) {
      from := OnChannel(s.inChannel.value);
    }
  }

  lemma SendBrings(net: Net, r: nat, i: nat, spot: Spot, ad: Advertisement) returns (from: Spot)
    requires NetOk(net) && Possible(net, SendTo(r, i)) && IsAt(Take(net, SendTo(r, i)), spot, ad)
    ensures IsAt(net, from, ad) && Precedes(net, from, spot)
  {
    EndOfOk(net, r, i);
    var n := net.nodes[r];
    SendInvents(EndOf(net, n.sessions[i]), n.ads, ad);
    WiringAt(n, i);
    from := spot;
    if spot.OnChannel? && !IsAt(net, spot, ad) {
      from := Outgoing(r);
    }
  }

  /** The other steps keep advertisements where they are, inject one, or generate one. */
  lemma OtherBrings(net: Net, step: Step, spot: Spot, ad: Advertisement)
    requires NetOk(net) && Possible(net, step) && !step.ReceiveFrom? && !step.SendTo?
    requires IsAt(Take(net, step), spot, ad)
    ensures || IsAt(net, spot, ad)
            || ((step.InjectAtNode? || step.InjectInChannel?) && step.ad == ad)
            || (step.Generate? && spot == Outgoing(step.node) && ad == OwnAd(net.nodes[step.node]))
  {
    hide Play, Reports, OpsOfAll, CanAcquire;
    if !step.InjectInChannel? {
      var n := net.nodes[step.node];
      assert NodeOk(net, n);
      WorkedAds(n, step, ad);
    }
  }

  lemma WorkedAds(n: Node, step: Step, ad: Advertisement)
    requires CanAcquire(n.rib.alloc, n.id)
    ensures Worked(n, step).sessions == n.sessions && Worked(n, step).ip == n.ip
    ensures ad in Worked(n, step).inbox ==> ad in n.inbox
    ensures ad in Worked(n, step).ads ==>
              ad in n.ads || (step.InjectAtNode? && step.ad == ad) || (step.Generate? && ad == OwnAd(n))
  {
    hide Play, Reports, OpsOfAll;
  }

  lemma StepKeepsAddresses(net: Net, step: Step)
    requires NetOk(net) && Possible(net, step)
    ensures |Take(net, step).nodes| == |net.nodes|
    ensures forall q :: 0 <= q < |net.nodes| ==> Take(net, step).nodes[q].ip == net.nodes[q].ip
  {
    hide Play, Reports, OpsOfAll, OwnAd;
  }

  // ---- whole runs ----

  ghost predicate SameAddresses(a: Net, b: Net) {
    |a.nodes| == |b.nodes| && forall q :: 0 <= q < |a.nodes| ==> a.nodes[q].ip == b.nodes[q].ip
  }

  lemma {:induction false} RunKeepsAddresses(net: Net, steps: seq<Step>)
    requires NetOk(net) && Reached(net, steps).Some?
    ensures SameAddresses(net, Reached(net, steps).value)
    decreases |steps|
  {
    hide Take, Possible;
    if steps != [] {
      var last := |steps| - 1;
      RunKeepsAddresses(net, steps[..last]);
      StepKeepsAddresses(Reached(net, steps[..last]).value, steps[last]);
    }
  }

  lemma InjectedLater(steps: seq<Step>, n: nat, ad: Advertisement)
    requires n <= |steps| && Injected(steps[..n], ad)
    ensures Injected(steps, ad)
  {
    var s :| s in steps[..n] && (s.InjectAtNode? || s.InjectInChannel?) && s.ad == ad;
    assert s in steps;
  }

  /** What was near its origin is near it one move later. */
  lemma MovedIsNear(net: Net, steps: seq<Step>, last: nat, from: Spot, to: Spot, ad: Advertisement)
    requires NetOk(net) && last <= |steps| && GeneratedNear(net, steps[..last], from, ad) && Precedes(net, from, to)
    ensures GeneratedNear(net, steps, to, ad)
  {
    hide HasLink, Reached, OwnAd;
    var n: nat, q: nat :| Near(net, q, from) && GeneratedIn(net, steps[..last], n, q, ad);
    if from.OnChannel? && to.Incoming? {
      assert OneHop(net, q, from.channel, to.node);
    }
    assert steps[..last][..n] == steps[..n];
    assert Near(net, q, to) && GeneratedIn(net, steps, n, q, ad);
  }

  lemma LinksStay(net: Net, now: Net, from: Spot, to: Spot)
    requires SameWiring(net, now) && Precedes(now, from, to)
    ensures Precedes(net, from, to)
  {
    if from.Outgoing? && to.OnChannel? {
      SameLinks(net, now, AtNode(from.node), InChannel(to.channel));
    } else if from.OnChannel? && to.Incoming? {
      SameLinks(net, now, InChannel(from.channel), AtNode(to.node));
    }
  }

  /** Over any run, an advertisement anywhere in the network was injected, or was generated by a
      step of a router at most one hop away, out of what that router had to report then. */
  lemma {:induction false} AdOrigin(net: Net, steps: seq<Step>, spot: Spot, ad: Advertisement)
    requires NetOk(net) && Idle(net) && Reached(net, steps).Some? && IsAt(Reached(net, steps).value, spot, ad)
    ensures Injected(steps, ad) || GeneratedNear(net, steps, spot, ad)
    decreases |steps|
  {
    hide Take, Possible, HasLink, OwnAd, Injected, GeneratedNear;
    if steps == [] {
      IdleHasNone(net, spot, ad);
    } else {
      var last := |steps| - 1;
      var step, was := steps[last], Reached(net, steps[..last]).value;
      var from := spot;
      if step.ReceiveFrom? {
        from := ReceiveBrings(was, step.node, step.session, spot, ad);
      } else if step.SendTo? {
        from := SendBrings(was, step.node, step.session, spot, ad);
      } else {
        OtherBrings(was, step, spot, ad);
        if !IsAt(was, spot, ad) {
          NewIsNear(net, steps, spot, ad);
          return;
        }
      }
      AdOrigin(net, steps[..last], from, ad);
      LinksStay(net, was, from, spot);
      if Injected(steps[..last], ad) {
        InjectedLater(steps, last, ad);
      } else {
        MovedIsNear(net, steps, last, from, spot, ad);
      }
    }
  }

  lemma NewIsNear(net: Net, steps: seq<Step>, spot: Spot, ad: Advertisement)
    requires NetOk(net) && steps != [] && Reached(net, steps[..|steps| - 1]).Some?
    requires var step, was := steps[|steps| - 1], Reached(net, steps[..|steps| - 1]).value;
             || ((step.InjectAtNode? || step.InjectInChannel?) && step.ad == ad)
             || (step.Generate? && spot == Outgoing(step.node) && step.node < |was.nodes|
                 && ad == OwnAd(was.nodes[step.node]))
    ensures Injected(steps, ad) || GeneratedNear(net, steps, spot, ad)
  {
    hide Reached, OwnAd;
    var last := |steps| - 1;
    assert steps[last] in steps;
    if steps[last].Generate? {
      assert Near(net, steps[last].node, spot) && GeneratedIn(net, steps, last, steps[last].node, ad);
    }
  }

  /** What a router generates has its address as peer and host, and no path. */
  lemma GeneratedIsAuthored(net: Net, steps: seq<Step>, n: nat, q: nat, ad: Advertisement)
    requires NetOk(net) && GeneratedIn(net, steps, n, q, ad)
    ensures q < |net.nodes| && Authored(net.nodes[q].ip, ad)
  {
    RunKeepsAddresses(net, steps[..n]);
  }

  lemma IdleHasNone(net: Net, spot: Spot, ad: Advertisement)
    requires Idle(net)
    ensures !IsAt(net, spot, ad)
  {
    if (spot.Outgoing? || spot.Incoming?) && spot.node < |net.nodes| {
      assert NodeIdle(net.nodes[spot.node]);
    }
  }

  /** The route was read from an injected advertisement: its peer and its path. */
  ghost predicate ReadFromInjected(steps: seq<Step>, x: Route) {
    exists ad :: Injected(steps, ad) && ad.peer == Some(x.peer) && TellsPath(ad, x.asPath)
  }

  /** The route has an empty path and the address of a router one hop away as its peer. */
  ghost predicate ReadFromNeighbour(net: Net, r: nat, x: Route) {
    && x.asPath == []
    && exists q: nat, c: nat :: OneHop(net, q, c, r) && q < |net.nodes| && x.peer == net.nodes[q].ip.address
  }

  /** Attribution: over any run, every stored route has the peer and the path of an injected
      advertisement, or an empty path and the address of a router one hop away as its peer. */
  lemma {:induction false} EveryRouteIsAttributed(net: Net, steps: seq<Step>, r: nat, p: IpNetwork, x: Route)
    requires NetOk(net) && Idle(net) && Reached(net, steps).Some?
    requires r < |Reached(net, steps).value.nodes| && Stored(EntryAt(Reached(net, steps).value.nodes[r].rib, p), x)
    ensures ReadFromInjected(steps, x) || ReadFromNeighbour(net, r, x)
    decreases |steps|
  {
    hide Possible, Injected, OneHop, Stored, EntryAt;
    if steps == [] {
      NothingStored(net, r, p, x);
    } else {
      var last := |steps| - 1;
      var step, was := steps[last], Reached(net, steps[..last]).value;
      TakeOk(was, step);
      if Stored(EntryAt(was.nodes[r].rib, p), x) {
        EveryRouteIsAttributed(net, steps[..last], r, p, x);
        if ReadFromInjected(steps[..last], x) {
          var ad :| Injected(steps[..last], ad) && ad.peer == Some(x.peer) && TellsPath(ad, x.asPath);
          InjectedLater(steps, last, ad);
        }
      } else {
        RibChanges(was, step, r);
        var ad := UpdateReads(was.nodes[r], p, x);
        AdOrigin(net, steps[..last], Incoming(r), ad);
        if Injected(steps[..last], ad) {
          InjectedLater(steps, last, ad);
        } else {
          NearIsNeighbour(net, steps[..last], r, ad, x);
        }
      }
    }
  }

  lemma NothingStored(net: Net, r: nat, p: IpNetwork, x: Route)
    requires Idle(net) && r < |net.nodes|
    ensures !Stored(EntryAt(net.nodes[r].rib, p), x)
  {
    assert NodeIdle(net.nodes[r]);
  }

  /** Only an update changes a table. */
  lemma RibChanges(net: Net, step: Step, r: nat)
    requires NetOk(net) && Possible(net, step) && r < |net.nodes|
    ensures r < |Take(net, step).nodes| && CanAcquire(net.nodes[r].rib.alloc, net.nodes[r].id)
    ensures Take(net, step).nodes[r].rib == if step == Update(r) then Updated(net.nodes[r]).rib else net.nodes[r].rib
  {
    hide Play, Reports, OpsOfAll, OwnAd, CanAcquire;
    assert NodeOk(net, net.nodes[r]);
  }

  lemma UpdateReads(n: Node, p: IpNetwork, x: Route) returns (ad: Advertisement)
    requires CanAcquire(n.rib.alloc, n.id)
    requires Stored(EntryAt(Updated(n).rib, p), x) && !Stored(EntryAt(n.rib, p), x)
    ensures ad in n.inbox && ad.peer == Some(x.peer) && TellsPath(ad, x.asPath)
  {
    UpdateFinishes(n.rib, n.inbox, n.id);
    PlayStores(n.rib, OpsOfAll(n.inbox, n.id), p, x);
    var op :| op in OpsOfAll(n.inbox, n.id) && op.InsertOp? && op.route == x;
    ad := InsertedIsAnnounced(n.inbox, n.id, op);
    ExpandMember(ad, ad.announcements.value, x);
  }

  lemma NearIsNeighbour(net: Net, steps: seq<Step>, r: nat, ad: Advertisement, x: Route)
    requires NetOk(net) && GeneratedNear(net, steps, Incoming(r), ad)
    requires ad.peer == Some(x.peer) && TellsPath(ad, x.asPath)
    ensures ReadFromNeighbour(net, r, x)
  {
    var n: nat, q: nat :| Near(net, q, Incoming(r)) && GeneratedIn(net, steps, n, q, ad);
    GeneratedIsAuthored(net, steps, n, q, ad);
    var c :| OneHop(net, q, c, r);
  }

  /** In a network wired from a topology the router one hop away is a neighbour there. */
  lemma {:induction false} WiredRoutesAreAttributed(g: NetworkGraph, b: Built, steps: seq<Step>, r: nat,
                                                    p: IpNetwork, x: Route)
    requires Proper(g) && LoopFree(g) && Outcome(g, b) && r < |g.vertices|
    requires (WiredNetworkIsReady(g, b);
              var end := Reached(NetOf(g, b), steps);
              end.Some? && r < |end.value.nodes| && Stored(EntryAt(end.value.nodes[r].rib, p), x))
    ensures || ReadFromInjected(steps, x)
            || (x.asPath == []
                && exists q: nat :: Neighbours(g, q, r) && q < |NetOf(g, b).nodes|
                                    && x.peer == NetOf(g, b).nodes[q].ip.address)
  {
    hide Proper, LoopFree, Outcome, NetOf, ReadFromInjected, HasLink;
    WiredNetworkIsReady(g, b);
    EveryRouteIsAttributed(NetOf(g, b), steps, r, p, x);
    if !ReadFromInjected(steps, x) {
      var q: nat, c: nat :| OneHop(NetOf(g, b), q, c, r) && q < |NetOf(g, b).nodes|
                            && x.peer == NetOf(g, b).nodes[q].ip.address;
      HopsAreEdges(g, b, q, c, r);
      assert Neighbours(g, q, r);
    }
  }

  /** Over any run, an own-AS filter can reject only injected advertisements, at whatever place it is
      asked: what routers generate carries no path to recognise. */
  lemma {:induction false} OwnASRejectsOnlyInjected(net: Net, steps: seq<Step>, spot: Spot, ad: Advertisement, asn: nat)
    requires NetOk(net) && Idle(net) && Reached(net, steps).Some? && IsAt(Reached(net, steps).value, spot, ad)
    requires !OwnASFilter(asn, ad)
    ensures Injected(steps, ad)
  {
    AdOrigin(net, steps, spot, ad);
  }

  /** Over any run, a host filter passes, at whatever place it is asked, only injected advertisements
      of that host and those that a router of that host, at most one hop away, generated. */
  lemma HostFilterPassesOnly(net: Net, steps: seq<Step>, spot: Spot, ad: Advertisement, host: string)
    requires NetOk(net) && Idle(net) && Reached(net, steps).Some? && IsAt(Reached(net, steps).value, spot, ad)
    requires HostFilter(host, ad)
    ensures || Injected(steps, ad)
            || exists q: nat :: q < |net.nodes| && net.nodes[q].ip.text == host && Near(net, q, spot)
  {
    AdOrigin(net, steps, spot, ad);
    if !Injected(steps, ad) {
      var n: nat, q: nat :| Near(net, q, spot) && GeneratedIn(net, steps, n, q, ad);
      GeneratedIsAuthored(net, steps, n, q, ad);
      assert q < |net.nodes| && net.nodes[q].ip.text == host && Near(net, q, spot);
    }
  }
}
