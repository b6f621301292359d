/** Where the routes of a network come from: over any run, from an injected advertisement and
    along the links (src/modules/router.rs, src/components/bgp/bgp_process.rs). */
module Provenance {
  import opened Wrappers
  import opened IpNetworks
  import opened Routes
  import opened RibEntries
  import opened RouterMaskMaps
  import opened Ribs
  import opened RibRuns
  import opened Advertisements
  import opened RibUpdates
  import opened Interfaces
  import opened BgpProcesses
  import opened Networks

  datatype Place = AtNode(node: nat) | InChannel(channel: nat)

  /** A session of the router sends into the channel, or receives from it. */
  ghost predicate HasLink(net: Net, a: Place, b: Place) {
    match (a, b)
    case (AtNode(r), InChannel(c)) => r < |net.nodes| && exists w <- Wiring(net.nodes[r]) :: w.1 == Some(c)
    case (InChannel(c), AtNode(r)) => r < |net.nodes| && exists w <- Wiring(net.nodes[r]) :: w.0 == Some(c)
    case _ => false
  }

  /** A walk along links, oldest place first. */
  ghost predicate IsWalk(net: Net, walk: seq<Place>) {
    walk != [] && forall i :: 0 < i < |walk| ==> HasLink(net, walk[i - 1], walk[i])
  }

  ghost predicate Reaches(net: Net, a: Place, b: Place) {
    exists walk :: IsWalk(net, walk) && walk[0] == a && walk[|walk| - 1] == b
  }

  // ---- what is at a place ----

  ghost predicate NodeHolds(n: Node, ad: Advertisement) {
    || ad in n.inbox || ad in n.ads
    || exists i :: 0 <= i < |n.sessions| && (ad in n.sessions[i].port.incoming || ad in n.sessions[i].port.outgoing)
  }

  /** The advertisement is in the channel, or in one of the router's buffers. */
  ghost predicate Holds(net: Net, at: Place, ad: Advertisement) {
    match at
    case AtNode(r) => r < |net.nodes| && NodeHolds(net.nodes[r], ad)
    case InChannel(c) => c < |net.channels| && ad in net.channels[c].messages
  }

  /** The pair of prefix and next hop is in the router's table or among its changes. */
  ghost predicate NodeKnows(n: Node, prefix: IpNetwork, nextHop: string) {
    || (exists x :: Stored(EntryAt(n.rib, prefix), x) && x.nextHop == nextHop)
    || exists x: Route :: x in n.pending.announced + n.updates.announced && x.prefix == prefix && x.nextHop == nextHop
  }

  ghost predicate Carries(net: Net, at: Place, prefix: IpNetwork, nextHop: string) {
    || (exists ad :: Holds(net, at, ad) && Names(ad, prefix, nextHop))
    || (at.AtNode? && at.node < |net.nodes| && NodeKnows(net.nodes[at.node], prefix, nextHop))
  }

  // ---- one step moves things along at most one link ----

  lemma WiringAt(n: Node, i: nat)
    requires i < |n.sessions|
    ensures (n.sessions[i].inChannel, n.sessions[i].outChannel) in Wiring(n)
  {
    assert Wiring(n)[i] == (n.sessions[i].inChannel, n.sessions[i].outChannel);
  }

  lemma ReceiveMoves(net: Net, r: nat, i: nat, at: Place, ad: Advertisement) returns (from: Place)
    requires NetOk(net) && Possible(net, ReceiveFrom(r, i)) && Holds(Take(net, ReceiveFrom(r, i)), at, ad)
    ensures Holds(net, from, ad) && (from == at || HasLink(net, from, at))
  {
    EndOfOk(net, r, i);
    var s := net.nodes[r].sessions[i];
    var e := EndOf(net, s);
    ReceiveInvents(e, ad);
    WiringAt(net.nodes[r], i);
    from := at;
    if at == AtNode(r) && !NodeHolds(net.nodes[r], ad) {
      from := InChannel(s.inChannel.value);
    }
  }

  lemma SendMoves(net: Net, r: nat, i: nat, at: Place, ad: Advertisement) returns (from: Place)
    requires NetOk(net) && Possible(net, SendTo(r, i)) && Holds(Take(net, SendTo(r, i)), at, ad)
    ensures Holds(net, from, ad) && (from == at || HasLink(net, from, at))
  {
    EndOfOk(net, r, i);
    var n, s := net.nodes[r], net.nodes[r].sessions[i];
    var e := EndOf(net, s);
    SendInvents(e, n.ads, ad);
    WiringAt(n, i);
    from := at;
    if at.InChannel? && !Holds(net, at, ad) {
      from := AtNode(r);
    }
  }

  lemma {:induction false} MapMember(rs: seq<Route>, f: Route -> RibOp, op: RibOp)
    ensures op in Map(rs, f) <==> exists r <- rs :: f(r) == op
  {
    if rs != [] {
      MapMember(rs[1..], f, op);
      assert forall r :: r in rs <==> r == rs[0] || r in rs[1..];
    }
  }

  lemma {:induction false} InsertedIsAnnounced(ads: seq<Advertisement>, id: Uuid, op: RibOp) returns (ad: Advertisement)
    requires op in OpsOfAll(ads, id) && op.InsertOp?
    ensures ad in ads && op.route in Announced(ad)
  {
    MapMember(Announced(ads[0]), InsertBy(id), op);
    MapMember(Withdrawals(ads[0]), RemoveBy(id), op);
    if op in OpsOf(ads[0], id) {
      ad := ads[0];
    } else {
      ad := InsertedIsAnnounced(ads[1..], id, op);
    }
  }

  lemma {:induction false} RemovedIsWithdrawn(ads: seq<Advertisement>, id: Uuid, op: RibOp) returns (ad: Advertisement)
    requires op in OpsOfAll(ads, id) && op.RemoveOp?
    ensures ad in ads && ad.withdrawals.Some? && op.route in Withdrawals(ad)
  {
    MapMember(Announced(ads[0]), InsertBy(id), op);
    MapMember(Withdrawals(ads[0]), RemoveBy(id), op);
    if op in OpsOf(ads[0], id) {
      ad := ads[0];
    } else {
      ad := RemovedIsWithdrawn(ads[1..], id, op);
    }
  }

  lemma AnnouncedIsNamed(ad: Advertisement, x: Route)
    requires x in Announced(ad)
    ensures Names(ad, x.prefix, x.nextHop)
  {
    ExpandMember(ad, ad.announcements.value, x);
  }

  /** Only inserted routes are reported as announcements. */
  lemma {:induction false} ReportsAreInserted(s: Rib, ops: seq<RibOp>, x: Route) returns (op: RibOp)
    requires Finishes(s, ops) && x in Reports(s, ops).announced
    ensures op in ops && op.InsertOp? && op.route == x
    decreases |ops|
  {
    hide Apply;
    if x in ReportOne(s, ops[0]).announced {
      op := ops[0];
    } else {
      op := ReportsAreInserted(Apply(s, ops[0]), ops[1..], x);
    }
  }

  /** The table and the changes of a router learn only what its collected advertisements name. */
  lemma UpdateLearns(n: Node, prefix: IpNetwork, nextHop: string)
    requires CanAcquire(n.rib.alloc, n.id) && NodeKnows(Updated(n), prefix, nextHop)
    ensures NodeKnows(n, prefix, nextHop) || exists ad <- n.inbox :: Names(ad, prefix, nextHop)
  {
    var ops := OpsOfAll(n.inbox, n.id);
    UpdateFinishes(n.rib, n.inbox, n.id);
    if x :| Stored(EntryAt(Updated(n).rib, prefix), x) && x.nextHop == nextHop {
      PlayStores(n.rib, ops, prefix, x);
      if !Stored(EntryAt(n.rib, prefix), x) {
        var op :| op in ops && op.InsertOp? && op.route == x;
        var ad := InsertedIsAnnounced(n.inbox, n.id, op);
        AnnouncedIsNamed(ad, x);
      }
    } else {
      var x: Route :| x in Updated(n).pending.announced + n.updates.announced
                      && x.prefix == prefix && x.nextHop == nextHop;
      if x !in n.pending.announced + n.updates.announced {
        var op := ReportsAreInserted(n.rib, ops, x);
        var ad := InsertedIsAnnounced(n.inbox, n.id, op);
        AnnouncedIsNamed(ad, x);
      }
    }
  }

  lemma {:induction false} MapAnnounceMember(rs: seq<Route>, a: Announcement)
    requires a in Map(rs, AnnounceOne)
    ensures exists r <- rs :: AnnounceOne(r) == a
  {
    if a != AnnounceOne(rs[0]) {
      MapAnnounceMember(rs[1..], a);
    }
  }

  /** A generated advertisement names what was reported. */
  lemma GeneratedNames(n: Node, prefix: IpNetwork, nextHop: string)
    requires Names(OwnAd(n), prefix, nextHop)
    ensures NodeKnows(n, prefix, nextHop)
  {
    var ad := OwnAd(n);
    var a :| a in ad.announcements.value && Some(prefix) in a.prefixes && a.nextHop == nextHop;
    MapAnnounceMember(n.updates.announced, a);
    var r :| r in n.updates.announced && AnnounceOne(r) == a;
    assert r in n.pending.announced + n.updates.announced;
  }

  // ---- whole runs ----

  /** The step injects an advertisement at the place. */
  predicate Injects(step: Step, at: Place) {
    || (step.InjectAtNode? && at == AtNode(step.node))
    || (step.InjectInChannel? && at == InChannel(step.channel))
  }

  lemma OneMoreAd(n: Node, more: Advertisement, ad: Advertisement)
    ensures NodeHolds(n.(ads := n.ads + [more]), ad) <==> NodeHolds(n, ad) || ad == more
  {
    var n' := n.(ads := n.ads + [more]);
    assert forall i :: 0 <= i < |n.sessions| ==> n'.sessions[i] == n.sessions[i];
  }

  /** What a node keeps or learns in a step of its own. */
  lemma OwnStep(net: Net, step: Step, r: nat, prefix: IpNetwork, nextHop: string)
    requires NetOk(net) && Possible(net, step) && r < |net.nodes|
    requires !step.ReceiveFrom? && !step.SendTo? && Carries(Take(net, step), AtNode(r), prefix, nextHop)
    ensures Carries(net, AtNode(r), prefix, nextHop) || (Injects(step, AtNode(r)) && Names(step.ad, prefix, nextHop))
  {
    hide Names, Stored, EntryAt, Play, Reports, OpsOfAll, OwnAd;
    var n, n' := net.nodes[r], Take(net, step).nodes[r];
    assert NodeOk(net, n);
    if NodeKnows(n', prefix, nextHop) {
      if step == Update(r) {
        UpdateLearns(n, prefix, nextHop);
        if ad :| ad in n.inbox && Names(ad, prefix, nextHop) {
          assert Holds(net, AtNode(r), ad);
        }
      }
    } else {
      var ad :| NodeHolds(n', ad) && Names(ad, prefix, nextHop);
      if step.InjectAtNode? {
        OneMoreAd(n, step.ad, ad);
      }
      if NodeHolds(n, ad) {
        assert Holds(net, AtNode(r), ad);
      } else if step == Generate(r) {
        OneMoreAd(n, OwnAd(n), ad);
        GeneratedNames(n, prefix, nextHop);
      }
    }
  }

  /** Whatever is at a place after a step was there before, was one link away, or was injected
      there by the step. */
  lemma StepCarries(net: Net, step: Step, at: Place, prefix: IpNetwork, nextHop: string) returns (from: Place)
    requires NetOk(net) && Possible(net, step) && Carries(Take(net, step), at, prefix, nextHop)
    ensures || (Carries(net, from, prefix, nextHop) && (from == at || HasLink(net, from, at)))
            || (Injects(step, at) && Names(step.ad, prefix, nextHop))
  {
    hide Names, NodeKnows, NodeHolds, HasLink;
    from := at;
    TakeOk(net, step);
    if step.ReceiveFrom? || step.SendTo? {
      KnowsSame(net, step, at, prefix, nextHop);
      if ad :| Holds(Take(net, step), at, ad) && Names(ad, prefix, nextHop) {
        if step.ReceiveFrom? {
          from := ReceiveMoves(net, step.node, step.session, at, ad);
        } else {
          from := SendMoves(net, step.node, step.session, at, ad);
        }
      }
    } else if at.AtNode? {
      OwnStep(net, step, at.node, prefix, nextHop);
    } else {
      var ad :| Holds(Take(net, step), at, ad) && Names(ad, prefix, nextHop);
      if !Holds(net, at, ad) {
        assert step == InjectInChannel(at.channel, ad);
      }
    }
  }

  lemma KnowsSame(net: Net, step: Step, at: Place, prefix: IpNetwork, nextHop: string)
    requires NetOk(net) && Possible(net, step) && (step.ReceiveFrom? || step.SendTo?)
    ensures var after := Take(net, step);
            at.AtNode? && at.node < |after.nodes| && NodeKnows(after.nodes[at.node], prefix, nextHop) ==>
              at.node < |net.nodes| && NodeKnows(net.nodes[at.node], prefix, nextHop)
  {
    TakeOk(net, step);
    if at.AtNode? && at.node < |net.nodes| {
      assert Take(net, step).nodes[at.node].rib == net.nodes[at.node].rib;
    }
  }

  lemma SameLinks(a: Net, b: Net, x: Place, y: Place)
    requires SameWiring(a, b)
    ensures HasLink(a, x, y) <==> HasLink(b, x, y)
  {
  }

  lemma ExtendWalk(net: Net, walk: seq<Place>, at: Place)
    requires IsWalk(net, walk) && HasLink(net, walk[|walk| - 1], at)
    ensures IsWalk(net, walk + [at])
  {
    var longer := walk + [at];
    forall i | 0 < i < |longer|
      ensures HasLink(net, longer[i - 1], longer[i])
    {
      if i < |walk| {
        assert HasLink(net, walk[i - 1], walk[i]);
      }
    }
  }

  /** Over any run, a pair at a place was at the start, or was injected during the run, at a
      place from which a walk along the links leads there. */
  lemma {:induction false} PairsTravel(net: Net, steps: seq<Step>, at: Place, prefix: IpNetwork, nextHop: string)
    returns (k: nat, walk: seq<Place>)
    requires NetOk(net) && Reached(net, steps).Some? && Carries(Reached(net, steps).value, at, prefix, nextHop)
    ensures IsWalk(net, walk) && walk[|walk| - 1] == at
    ensures || Carries(net, walk[0], prefix, nextHop)
            || (k < |steps| && Injects(steps[k], walk[0]) && Names(steps[k].ad, prefix, nextHop))
    decreases |steps|
  {
    hide Carries, Take, Possible, HasLink, Names;
    k, walk := 0, [at];
    if steps != [] {
      var last := |steps| - 1;
      var before := Reached(net, steps[..last]).value;
      var from := StepCarries(before, steps[last], at, prefix, nextHop);
      if Carries(before, from, prefix, nextHop) && (from == at || HasLink(before, from, at)) {
        k, walk := PairsTravel(net, steps[..last], from, prefix, nextHop);
        if from != at {
          SameLinks(net, before, from, at);
          ExtendWalk(net, walk, at);
          walk := walk + [at];
        }
      } else {
        k := last;
      }
    }
  }

  lemma IdleCarriesNothing(net: Net, at: Place, prefix: IpNetwork, nextHop: string)
    requires Idle(net)
    ensures !Carries(net, at, prefix, nextHop)
  {
    if at.AtNode? && at.node < |net.nodes| {
      assert NodeIdle(net.nodes[at.node]);
    }
  }

  /** Provenance: in a network that starts idle, every pair of prefix and next hop in a router's
      table, in its changes, in its buffers or on a link comes from an injected advertisement
      that names it, along a walk from the place of the injection. */
  lemma {:induction false} EveryPairWasInjected(net: Net, steps: seq<Step>, at: Place,
                                                prefix: IpNetwork, nextHop: string)
    requires NetOk(net) && Idle(net) && Reached(net, steps).Some?
    requires Carries(Reached(net, steps).value, at, prefix, nextHop)
    ensures exists k, source :: 0 <= k < |steps| && Injects(steps[k], source)
              && Names(steps[k].ad, prefix, nextHop) && Reaches(net, source, at)
  {
    var k, walk := PairsTravel(net, steps, at, prefix, nextHop);
    IdleCarriesNothing(net, walk[0], prefix, nextHop);
    assert Reaches(net, walk[0], at);
  }

  // ---- withdrawals ----

  predicate NamesGiven(ad: Advertisement) {
    ad.announcements.Some? ==> forall a <- ad.announcements.value :: a.nextHop != ""
  }

  /** Every injected announcement has a next hop. */
  predicate InjectionsGiven(steps: seq<Step>) {
    forall s <- steps :: s.InjectAtNode? || s.InjectInChannel? ==> NamesGiven(s.ad)
  }

  lemma NothingUnnamed(net: Net, steps: seq<Step>, at: Place, prefix: IpNetwork)
    requires NetOk(net) && Idle(net) && Reached(net, steps).Some? && InjectionsGiven(steps)
    ensures !Carries(Reached(net, steps).value, at, prefix, "")
  {
    if Carries(Reached(net, steps).value, at, prefix, "") {
      EveryPairWasInjected(net, steps, at, prefix, "");
    }
  }

  lemma RemovedIsUnnamed(ads: seq<Advertisement>, id: Uuid, op: RibOp)
    requires op in OpsOfAll(ads, id) && op.RemoveOp?
    ensures op.route.nextHop == ""
  {
    var ad := RemovedIsWithdrawn(ads, id, op);
    RoutesForMember(ad, "", ad.withdrawals.value, op.route);
  }

  /** An update of such a network reports no withdrawal. */
  lemma UpdateStaysSilent(net: Net, steps: seq<Step>, r: nat)
    requires NetOk(net) && Idle(net) && Reached(net, steps).Some? && InjectionsGiven(steps)
    requires r < |Reached(net, steps).value.nodes|
    ensures var n := Reached(net, steps).value.nodes[r];
            && Finishes(n.rib, OpsOfAll(n.inbox, n.id))
            && Reports(n.rib, OpsOfAll(n.inbox, n.id)).withdrawn == []
  {
    hide Take, Possible, Names, Stored, EntryAt, Announced, Withdrawals;
    var now := Reached(net, steps).value;
    var n := now.nodes[r];
    assert NodeOk(now, n);
    UpdateFinishes(n.rib, n.inbox, n.id);
    forall p, x | Stored(EntryAt(n.rib, p), x)
      ensures x.nextHop != ""
    {
      NothingUnnamed(net, steps, AtNode(r), p);
      assert x.nextHop == "" ==> NodeKnows(n, p, "");
    }
    forall op | op in OpsOfAll(n.inbox, n.id)
      ensures (op.InsertOp? ==> op.route.nextHop != "") && (op.RemoveOp? ==> op.route.nextHop == "")
    {
      if op.RemoveOp? {
        RemovedIsUnnamed(n.inbox, n.id, op);
      } else if op.InsertOp? {
        var ad := InsertedIsAnnounced(n.inbox, n.id, op);
        AnnouncedIsNamed(ad, op.route);
        NothingUnnamed(net, steps, AtNode(r), op.route.prefix);
        assert Holds(now, AtNode(r), ad);
      }
    }
    WithdrawalsStaySilent(n.rib, OpsOfAll(n.inbox, n.id));
  }

  /** Where a router's withdrawals come from in one step. */
  lemma StepWithdraws(net: Net, step: Step, r: nat)
    requires NetOk(net) && Possible(net, step) && r < |net.nodes|
    requires var n := net.nodes[r];
             && Finishes(n.rib, OpsOfAll(n.inbox, n.id)) && Reports(n.rib, OpsOfAll(n.inbox, n.id)).withdrawn == []
             && n.pending.withdrawn == n.updates.withdrawn == []
    ensures var after := Take(net, step);
            r < |after.nodes| && after.nodes[r].pending.withdrawn == after.nodes[r].updates.withdrawn == []
  {
    hide Play, Reports, OpsOfAll, Generated, Finishes;
  }

  /** Withdrawals do not travel: when every injected announcement has a next hop, no router ever
      has a withdrawal to report, whatever is withdrawn from it. */
  lemma {:induction false} NoWithdrawalIsPassedOn(net: Net, steps: seq<Step>, r: nat)
    requires NetOk(net) && Idle(net) && Reached(net, steps).Some? && InjectionsGiven(steps)
    requires r < |Reached(net, steps).value.nodes|
    ensures var n := Reached(net, steps).value.nodes[r]; n.pending.withdrawn == n.updates.withdrawn == []
    decreases |steps|
  {
    hide Take, Possible, Reports, Finishes, OpsOfAll;
    if steps == [] {
      assert NodeIdle(net.nodes[r]);
    } else {
      var last := |steps| - 1;
      var before := Reached(net, steps[..last]).value;
      NoWithdrawalIsPassedOn(net, steps[..last], r);
      UpdateStaysSilent(net, steps[..last], r);
      StepWithdraws(before, steps[last], r);
    }
  }
}
