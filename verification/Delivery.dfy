/** How far an advertisement gets: the converse of provenance. In an idle network whose buffers have
    room and whose filters pass everything, a pair gets from one place to another in some run exactly
    when a walk along the links leads there (src/modules/router.rs, src/components/bgp/bgp_process.rs). */
module Deliveries {
  import opened Wrappers
  import opened RouterMaskMaps
  import opened IpNetworks
  import opened Routes
  import opened RibEntries
  import opened Ribs
  import opened RibRuns
  import opened Links
  import opened Advertisements
  import opened RibUpdates
  import opened Interfaces
  import opened BgpProcesses
  import opened Networks
  import opened NetworkWork
  import opened Provenance
  import opened Staleness
  import opened Topologies
  import opened NetworkManagers
  import opened Wirings

  /** Empty buffers that keep their size, with room for one advertisement, and filters that pass
      everything. */
  ghost predicate OpenPort(p: Port) {
    && p.incoming == p.outgoing == []
    && 1 <= p.incomingCapacity == p.sizeIncoming && 1 <= p.outgoingCapacity == p.sizeOutgoing
    && (forall ad :: p.inFilter(ad)) && (forall ad :: p.outFilter(ad))
  }

  ghost predicate Open(net: Net) {
    && (forall v, i :: 0 <= v < |net.nodes| && 0 <= i < |net.nodes[v].sessions| ==>
          OpenPort(net.nodes[v].sessions[i].port))
    && forall c :: 0 <= c < |net.channels| ==> 1 <= net.channels[c].bound
  }

  // ---- an idle router and one advertisement ----

  /** The advertisement makes its reader insert the pair. */
  predicate Bears(ad: Advertisement, prefix: IpNetwork, nextHop: string) {
    ad.peer.Some? && Names(ad, prefix, nextHop)
  }

  /** All routes of the table have this key. */
  ghost predicate Uniform(s: Rib, key: (nat, IpAddr)) {
    forall p, x :: Stored(EntryAt(s, p), x) ==> Key(x) == key
  }

  /** Among routes that the comparison cannot tell apart every insertion is reported. */
  lemma {:induction false} UniformReports(s: Rib, ops: seq<RibOp>, key: (nat, IpAddr), op: RibOp)
    requires Finishes(s, ops) && Uniform(s, key) && op in ops && op.InsertOp?
    requires forall o <- ops :: o.InsertOp? ==> Key(o.route) == key
    ensures op.route in Reports(s, ops).announced
    decreases |ops|
  {
    hide Apply, EntryAt, Stored;
    if op == ops[0] {
      InsertUnbeaten(s, op, key);
    } else {
      forall p, x | Stored(EntryAt(Apply(s, ops[0]), p), x) ensures Key(x) == key {
        ApplyStores(s, ops[0], p, x);
      }
      UniformReports(Apply(s, ops[0]), ops[1..], key, op);
    }
  }

  lemma InsertUnbeaten(s: Rib, op: RibOp, key: (nat, IpAddr))
    requires Uniform(s, key) && op.InsertOp? && CanAcquire(s.alloc, op.id) && Key(op.route) == key
    ensures InsertReport(s, op.route) == Some(op.route)
  {
    InsertReportIsExact(s, op.route, op.id);
    var rs := EntryAt(s, op.route.prefix);
    forall x | x in AllRoutes(rs) ensures !Beats(x, op.route) {
      StoredInAll(rs, x);
      CmpIsPreorder(x, op.route, op.route);
    }
  }

  /** Without removals nothing is reported as withdrawn, and every inserted route stays. */
  lemma {:induction false} InsertionsOnly(s: Rib, ops: seq<RibOp>, op: RibOp)
    requires Finishes(s, ops) && op in ops && forall o <- ops :: o.InsertOp?
    ensures Reports(s, ops).withdrawn == [] && Stored(EntryAt(Play(s, ops), op.route.prefix), op.route)
    decreases |ops|
  {
    hide Apply, EntryAt, Stored;
    if op == ops[0] {
      InsertIsStored(s, op);
      assert forall o <- ops[1..] :: o in ops;
      PlayKeeps(Apply(s, ops[0]), ops[1..], op.route.prefix, op.route);
    }
    if |ops| > 1 {
      InsertionsOnly(Apply(s, ops[0]), ops[1..], if op in ops[1..] then op else ops[1]);
    }
  }

  lemma InsertIsStored(s: Rib, op: RibOp)
    requires Admits(s, op) && op.InsertOp?
    ensures Stored(EntryAt(Apply(s, op), op.route.prefix), op.route)
  {
    InsertAfterRegister(s, op.route, op.id);
    InsertStored(EntryAt(s, op.route.prefix), {Acquire(s.alloc, op.id).owners[op.id]}, op.route, op.route);
  }

  /** The insertion that brings the pair. */
  lemma BearsInsertion(ad: Advertisement, id: Uuid, prefix: IpNetwork, nextHop: string) returns (op: RibOp)
    requires Bears(ad, prefix, nextHop)
    ensures op in OpsOfAll([ad], id) && op.InsertOp? && op.route.prefix == prefix && op.route.nextHop == nextHop
    ensures forall o <- OpsOfAll([ad], id) :: o.InsertOp? ==> Key(o.route) == (|PathOf(ad)|, ad.peer.value)
    ensures Withdrawals(ad) == [] ==> forall o <- OpsOfAll([ad], id) :: o.InsertOp?
  {
    var x := Route(ad.peer.value, prefix, nextHop, PathOf(ad));
    ExpandMember(ad, ad.announcements.value, x);
    op := InsertOp(id, x);
    assert [ad][1..] == [] && OpsOfAll([ad], id) == OpsOf(ad, id);
    MapMember(Announced(ad), InsertBy(id), op);
    assert InsertBy(id)(x) == op;
    forall o | o in OpsOfAll([ad], id)
      ensures o.InsertOp? ==> Key(o.route) == (|PathOf(ad)|, ad.peer.value)
      ensures Withdrawals(ad) == [] ==> o.InsertOp?
    {
      MapMember(Announced(ad), InsertBy(id), o);
      MapMember(Withdrawals(ad), RemoveBy(id), o);
      if o.InsertOp? {
        ExpandMember(ad, ad.announcements.value, o.route);
      }
    }
  }

  /** A router that has collected one advertisement, after its update, collection and generation. */
  function Digested(n: Node, ad: Advertisement): Node
    requires CanAcquire(n.rib.alloc, n.id)
  {
    var updated := Updated(n.(inbox := [ad]));
    var ready := updated.(updates := updated.pending, pending := NOTHING);
    ready.(ads := ready.ads + [OwnAd(ready)])
  }

  ghost predicate Learned(n: Node, prefix: IpNetwork, nextHop: string) {
    exists x :: Stored(EntryAt(n.rib, prefix), x) && x.prefix == prefix && x.nextHop == nextHop
  }

  lemma {:induction false} AnnouncesReported(rs: seq<Route>, x: Route)
    requires x in rs
    ensures AnnounceOne(x) in Map(rs, AnnounceOne)
  {
    if x != rs[0] {
      AnnouncesReported(rs[1..], x);
    }
  }

  /** What an idle router makes of one advertisement that bears the pair: one that bears it, and a
      route in its table unless the advertisement also withdraws. */
  lemma DigestedBears(n: Node, ad: Advertisement, prefix: IpNetwork, nextHop: string)
    requires CanAcquire(n.rib.alloc, n.id) && NodeIdle(n) && Bears(ad, prefix, nextHop)
    ensures var d := Digested(n, ad);
            && d.sessions == n.sessions && d.id == n.id && CanAcquire(d.rib.alloc, d.id) && |d.ads| == 1
            && Bears(d.ads[0], prefix, nextHop)
            && (Withdrawals(ad) == [] ==> Learned(d, prefix, nextHop) && Withdrawals(d.ads[0]) == [])
  {
    hide Finishes, Play, Reports, OpsOfAll, CanAcquire, Withdrawals, Names;
    var ops := OpsOfAll([ad], n.id);
    UpdateFinishes(n.rib, [ad], n.id);
    var op := BearsInsertion(ad, n.id, prefix, nextHop);
    UniformReports(n.rib, ops, (|PathOf(ad)|, ad.peer.value), op);
    var report := Reports(n.rib, ops);
    assert Join(NOTHING, report) == report;
    var d := Digested(n, ad);
    assert d.updates == report && d.rib == Play(n.rib, ops);
    GeneratedBears(d, op.route);
    if Withdrawals(ad) == [] {
      InsertionsOnly(n.rib, ops, op);
      NothingWithdrawn(d);
    }
  }

  lemma GeneratedBears(n: Node, x: Route)
    requires x in n.updates.announced
    ensures Bears(OwnAd(n), x.prefix, x.nextHop)
  {
    AnnouncesReported(n.updates.announced, x);
  }

  lemma NothingWithdrawn(n: Node)
    requires n.updates.withdrawn == []
    ensures Withdrawals(OwnAd(n)) == []
  {
  }

  // ---- single steps ----

  /** A receive from a channel with one advertisement. */
  lemma ReceivesOne(net: Net, v: nat, i: nat, c: nat, ad: Advertisement)
    requires NetOk(net) && v < |net.nodes| && i < |net.nodes[v].sessions| && c < |net.channels|
    requires OpenPort(net.nodes[v].sessions[i].port) && net.nodes[v].sessions[i].inChannel == Some(c)
    requires net.channels[c].messages == [ad] && net.nodes[v].inbox == []
    ensures Take(net, ReceiveFrom(v, i))
         == Net(net.nodes[v := net.nodes[v].(inbox := [ad])], net.channels[c := Queue(net.channels[c].bound, [])])
  {
    EndOfOk(net, v, i);
    var e := EndOf(net, net.nodes[v].sessions[i]);
    assert [ad][1..] == [] && [] + [ad] == [ad];
    assert Received([ad], [], e.port.incomingCapacity, e.port.inFilter) == ([], [ad]);
    assert AfterReceive(e).port == e.port;
    var after := Detach(net, v, i, AfterReceive(e));
    assert after.nodes[v] == net.nodes[v];
    assert after.channels == net.channels[c := Queue(net.channels[c].bound, [])];
  }

  /** A send of one advertisement into an empty channel. */
  lemma SendsOne(net: Net, v: nat, i: nat, c: nat, ad: Advertisement)
    requires NetOk(net) && v < |net.nodes| && i < |net.nodes[v].sessions| && c < |net.channels|
    requires OpenPort(net.nodes[v].sessions[i].port) && net.nodes[v].sessions[i].outChannel == Some(c)
    requires net.channels[c].messages == [] && 1 <= net.channels[c].bound && net.nodes[v].ads == [ad]
    ensures Take(net, SendTo(v, i)) == Net(net.nodes, net.channels[c := Queue(net.channels[c].bound, [ad])])
  {
    EndOfOk(net, v, i);
    var e := EndOf(net, net.nodes[v].sessions[i]);
    assert [ad][1..] == [] && [] + [ad] == [ad] && [ad][..1] == [ad];
    assert Transmitted([ad], [], net.channels[c].bound, e.port.outFilter) == [ad];
    var e' := AfterSend(e, [ad]);
    assert e'.port == e.port;
    var after := Detach(net, v, i, e');
    assert after.nodes[v] == net.nodes[v];
    assert after.nodes == net.nodes;
    assert after.channels == net.channels[c := Queue(net.channels[c].bound, [ad])];
  }

  // ---- one link of a walk ----

  predicate IsInjection(step: Step) {
    step.InjectAtNode? || step.InjectInChannel?
  }

  /** A router with nothing to do reads the advertisement of a channel and generates its own. */
  lemma ReadsIn(net: Net, steps: seq<Step>, v: nat, i: nat, c: nat, ad: Advertisement) returns (more: seq<Step>)
    requires NetOk(net) && Reached(net, steps).Some?
    requires var now := Reached(net, steps).value;
             && v < |now.nodes| && i < |now.nodes[v].sessions| && c < |now.channels|
             && OpenPort(now.nodes[v].sessions[i].port) && now.nodes[v].sessions[i].inChannel == Some(c)
             && now.channels[c].messages == [ad] && NodeIdle(now.nodes[v])
    ensures forall s <- more :: !IsInjection(s)
    ensures var now := Reached(net, steps).value;
            var n := now.nodes[v];
            && CanAcquire(n.rib.alloc, n.id)
            && Reached(net, steps + more)
               == Some(Net(now.nodes[v := Digested(n, ad)], now.channels[c := Queue(now.channels[c].bound, [])]))
  {
    hide OpenPort, Digested, Updated, OwnAd, CanAcquire, NodeOk;
    var now := Reached(net, steps).value;
    var n := now.nodes[v];
    assert NodeOk(now, n);
    ReceivesOne(now, v, i, c, ad);
    StepOn(net, steps, ReceiveFrom(v, i));
    var received := Reached(net, steps + [ReceiveFrom(v, i)]).value;
    DigestSteps(received, n, v, ad);
    assert received.nodes[v := Digested(n, ad)] == now.nodes[v := Digested(n, ad)];
    more := [ReceiveFrom(v, i), Update(v), Collect(v), Generate(v)];
    StepOn(net, steps + [ReceiveFrom(v, i)], Update(v));
    StepOn(net, steps + [ReceiveFrom(v, i)] + [Update(v)], Collect(v));
    StepOn(net, steps + [ReceiveFrom(v, i)] + [Update(v)] + [Collect(v)], Generate(v));
    assert steps + [ReceiveFrom(v, i)] + [Update(v)] + [Collect(v)] + [Generate(v)] == steps + more;
  }

  lemma DigestSteps(net: Net, n: Node, v: nat, ad: Advertisement)
    requires NetOk(net) && v < |net.nodes| && net.nodes[v] == n.(inbox := [ad])
    ensures CanAcquire(n.rib.alloc, n.id)
    ensures var updated := Take(net, Update(v));
            NetOk(updated) && v < |updated.nodes|
    ensures var collected := Take(Take(net, Update(v)), Collect(v));
            NetOk(collected) && v < |collected.nodes|
    ensures Take(Take(Take(net, Update(v)), Collect(v)), Generate(v))
         == Net(net.nodes[v := Digested(n, ad)], net.channels)
  {
    hide Updated, OwnAd, CanAcquire;
    assert NodeOk(net, net.nodes[v]);
    TakeOk(net, Update(v));
    TakeOk(Take(net, Update(v)), Collect(v));
  }

  // ---- walks ----

  ghost predicate IsPlace(net: Net, at: Place) {
    match at
    case AtNode(r) => r < |net.nodes|
    case InChannel(c) => c < |net.channels|
  }

  /** No place is visited twice. */
  ghost predicate Simple(walk: seq<Place>) {
    forall i, j :: 0 <= i < j < |walk| ==> walk[i] != walk[j]
  }

  /** The run begins by injecting the advertisement at the place and injects nothing else. */
  ghost predicate StartsWith(steps: seq<Step>, source: Place, ad: Advertisement) {
    && steps != [] && Injects(steps[0], source) && steps[0].ad == ad
    && forall n :: 0 < n < |steps| ==> !IsInjection(steps[n])
  }

  /** An advertisement has come to the end of the walk; off the walk nothing has changed. */
  ghost predicate HasCome(net: Net, now: Net, walk: seq<Place>, ad: Advertisement)
    requires walk != []
  {
    && |now.nodes| == |net.nodes|
    && (forall v :: 0 <= v < |net.nodes| ==> now.nodes[v].sessions == net.nodes[v].sessions)
    && (forall v :: 0 <= v < |net.nodes| && AtNode(v) !in walk ==> now.nodes[v] == net.nodes[v])
    && match walk[|walk| - 1]
       case AtNode(v) => v < |now.nodes| && now.nodes[v].ads == [ad] && now.channels == net.channels
       case InChannel(c) =>
         c < |net.channels| && now.channels == net.channels[c := Queue(net.channels[c].bound, [ad])]
  }

  lemma StartOf(net: Net, source: Place, ad: Advertisement) returns (step: Step)
    requires NetOk(net) && Idle(net) && Open(net) && IsPlace(net, source)
    ensures StartsWith([step], source, ad)
    ensures Reached(net, [step]).Some? && HasCome(net, Reached(net, [step]).value, [source], ad)
  {
    hide OpenPort, NodeIdle, Learned, Worked, CanAcquire, NodeOk, HasCome;
    if source.AtNode? {
      step := InjectAtNode(source.node, ad);
      StartAtNode(net, source.node, ad);
    } else {
      step := InjectInChannel(source.channel, ad);
      StartInChannel(net, source.channel, ad);
    }
    assert [] + [step] == [step];
    StepOn(net, [], step);
  }

  lemma StartAtNode(net: Net, v: nat, ad: Advertisement)
    requires NetOk(net) && v < |net.nodes| && NodeIdle(net.nodes[v])
    ensures HasCome(net, Take(net, InjectAtNode(v, ad)), [AtNode(v)], ad)
  {
    assert NodeOk(net, net.nodes[v]) && [] + [ad] == [ad];
    var n := net.nodes[v].(ads := net.nodes[v].ads + [ad]);
    assert Take(net, InjectAtNode(v, ad)) == WithNode(net, v, n);
    assert forall u: nat :: u != v ==> AtNode(u) !in [AtNode(v)];
  }

  lemma StartInChannel(net: Net, c: nat, ad: Advertisement)
    requires NetOk(net) && c < |net.channels| && net.channels[c].messages == [] && 1 <= net.channels[c].bound
    ensures Possible(net, InjectInChannel(c, ad))
    ensures HasCome(net, Take(net, InjectInChannel(c, ad)), [InChannel(c)], ad)
  {
    assert [] + [ad] == [ad];
  }

  /** From a channel into a router that the walk has not visited. */
  lemma ComesIn(net: Net, steps: seq<Step>, walk: seq<Place>, v: nat, ad: Advertisement, prefix: IpNetwork,
                nextHop: string)
    returns (more: seq<Step>, next: Advertisement)
    requires NetOk(net) && Idle(net) && Open(net) && Reached(net, steps).Some? && Bears(ad, prefix, nextHop)
    requires walk != [] && walk[|walk| - 1].InChannel? && HasLink(net, walk[|walk| - 1], AtNode(v))
    requires HasCome(net, Reached(net, steps).value, walk, ad) && AtNode(v) !in walk
    ensures (forall s <- more :: !IsInjection(s)) && Reached(net, steps + more).Some? && Bears(next, prefix, nextHop)
    ensures var now := Reached(net, steps + more).value;
            && HasCome(net, now, walk + [AtNode(v)], next)
            && (Withdrawals(ad) == [] ==> Withdrawals(next) == [] && Learned(now.nodes[v], prefix, nextHop))
  {
    hide OpenPort, Digested, Learned, Names, Withdrawals, NodeIdle, Reached, Bears, CanAcquire;
    var now, c := Reached(net, steps).value, walk[|walk| - 1].channel;
    var i :| 0 <= i < |Wiring(net.nodes[v])| && Wiring(net.nodes[v])[i].0 == Some(c);
    var n := net.nodes[v];
    assert NodeIdle(n) && now.nodes[v] == n;
    more := ReadsIn(net, steps, v, i, c, ad);
    DigestedBears(n, ad, prefix, nextHop);
    var d := Digested(n, ad);
    next := d.ads[0];
    var after := Reached(net, steps + more).value;
    assert after.channels == net.channels by {
      assert net.channels[c].messages == [];
    }
    forall u | 0 <= u < |net.nodes| && AtNode(u) !in walk + [AtNode(v)]
      ensures after.nodes[u] == net.nodes[u]
    {
      assert AtNode(u) !in walk && u != v;
    }
  }

  /** From a router into a channel it sends to. */
  lemma ComesOut(net: Net, steps: seq<Step>, walk: seq<Place>, c: nat, ad: Advertisement) returns (step: Step)
    requires NetOk(net) && Idle(net) && Open(net) && Reached(net, steps).Some?
    requires walk != [] && walk[|walk| - 1].AtNode? && HasLink(net, walk[|walk| - 1], InChannel(c))
    requires HasCome(net, Reached(net, steps).value, walk, ad)
    ensures !IsInjection(step) && Reached(net, steps + [step]).Some?
    ensures HasCome(net, Reached(net, steps + [step]).value, walk + [InChannel(c)], ad)
  {
    hide OpenPort, Reached;
    var now, v := Reached(net, steps).value, walk[|walk| - 1].node;
    var i :| 0 <= i < |Wiring(net.nodes[v])| && Wiring(net.nodes[v])[i].1 == Some(c);
    assert NodeOk(net, net.nodes[v]) && Attached(net, net.nodes[v].sessions[i]);
    step := SendTo(v, i);
    SendsOne(now, v, i, c, ad);
    StepOn(net, steps, step);
    assert forall u :: AtNode(u) in walk + [InChannel(c)] <==> AtNode(u) in walk;
  }

  lemma LinkAlternates(net: Net, a: Place, b: Place)
    requires HasLink(net, a, b)
    ensures a.AtNode? <==> b.InChannel?
  {
  }

  lemma FirstOnly(steps: seq<Step>, more: seq<Step>, source: Place, ad: Advertisement)
    requires StartsWith(steps, source, ad) && forall s <- more :: !IsInjection(s)
    ensures StartsWith(steps + more, source, ad)
  {
  }

  /** An advertisement that bears a pair can come along any walk that visits no place twice; where the
      walk enters a router, that router stores the pair unless the advertisement also withdraws. */
  lemma {:induction false} ComesAlong(net: Net, walk: seq<Place>, ad: Advertisement, prefix: IpNetwork, nextHop: string)
    returns (steps: seq<Step>, last: Advertisement)
    requires NetOk(net) && Idle(net) && Open(net) && Bears(ad, prefix, nextHop)
    requires IsWalk(net, walk) && Simple(walk) && IsPlace(net, walk[0])
    ensures StartsWith(steps, walk[0], ad) && Reached(net, steps).Some? && Bears(last, prefix, nextHop)
    ensures HasCome(net, Reached(net, steps).value, walk, last)
    ensures Withdrawals(ad) == [] ==>
              && Withdrawals(last) == []
              && (|walk| > 1 && walk[|walk| - 1].AtNode? ==>
                    Learned(Reached(net, steps).value.nodes[walk[|walk| - 1].node], prefix, nextHop))
    decreases |walk|
  {
    hide Open, Idle, NetOk, Bears, HasLink, HasCome, Learned, Withdrawals, Reached, StartsWith;
    var n := |walk| - 1;
    if n == 0 {
      var step := StartOf(net, walk[0], ad);
      steps, last := [step], ad;
      assert walk == [walk[0]];
    } else {
      var before := walk[..n];
      assert IsWalk(net, before) by {
        forall i | 0 < i < n ensures HasLink(net, before[i - 1], before[i]) {
          assert HasLink(net, walk[i - 1], walk[i]);
        }
      }
      assert HasLink(net, walk[n - 1], walk[n]) && before + [walk[n]] == walk;
      LinkAlternates(net, walk[n - 1], walk[n]);
      steps, last := ComesAlong(net, before, ad, prefix, nextHop);
      if walk[n].AtNode? {
        var more, next := ComesIn(net, steps, before, walk[n].node, last, prefix, nextHop);
        FirstOnly(steps, more, walk[0], ad);
        steps, last := steps + more, next;
      } else {
        var step := ComesOut(net, steps, before, walk[n].channel, last);
        FirstOnly(steps, [step], walk[0], ad);
        steps := steps + [step];
      }
    }
  }

  // ---- exactly where a walk leads ----

  /** Every walk can be shortened to one that visits no place twice. */
  lemma {:induction false} Shorten(net: Net, walk: seq<Place>) returns (short: seq<Place>)
    requires IsWalk(net, walk)
    ensures IsWalk(net, short) && Simple(short)
    ensures short[0] == walk[0] && short[|short| - 1] == walk[|walk| - 1]
    decreases |walk|
  {
    hide HasLink;
    if i, j :| 0 <= i < j < |walk| && walk[i] == walk[j] {
      var cut := walk[..i] + walk[j..];
      forall k | 0 < k < |cut| ensures HasLink(net, cut[k - 1], cut[k]) {
        if k < i {
          assert HasLink(net, walk[k - 1], walk[k]);
        } else if k == i {
          assert HasLink(net, walk[i - 1], walk[i]);
        } else {
          assert HasLink(net, walk[k + (j - i) - 1], walk[k + (j - i)]);
        }
      }
      short := Shorten(net, cut);
    } else {
      short := walk;
    }
  }

  /** Some run that injects the advertisement at the source, first, and nothing else brings the pair
      to the target. */
  ghost predicate CanCarry(net: Net, source: Place, ad: Advertisement, target: Place,
                           prefix: IpNetwork, nextHop: string)
    requires NetOk(net)
  {
    exists steps :: StartsWith(steps, source, ad) && Reached(net, steps).Some?
                    && Carries(Reached(net, steps).value, target, prefix, nextHop)
  }

  /** The same, into the router's table. */
  ghost predicate CanTeach(net: Net, source: Place, ad: Advertisement, v: nat, prefix: IpNetwork, nextHop: string)
    requires NetOk(net)
  {
    exists steps :: StartsWith(steps, source, ad) && Reached(net, steps).Some?
                    && v < |Reached(net, steps).value.nodes|
                    && Learned(Reached(net, steps).value.nodes[v], prefix, nextHop)
  }

  lemma CarriedAlongWalk(net: Net, steps: seq<Step>, source: Place, ad: Advertisement, target: Place,
                         prefix: IpNetwork, nextHop: string)
    requires NetOk(net) && Idle(net) && StartsWith(steps, source, ad) && Reached(net, steps).Some?
    requires Carries(Reached(net, steps).value, target, prefix, nextHop)
    ensures Reaches(net, source, target)
  {
    hide Carries, Reached, HasLink;
    var k, walk := PairsTravel(net, steps, target, prefix, nextHop);
    IdleCarriesNothing(net, walk[0], prefix, nextHop);
    assert k == 0 && walk[0] == source;
  }

  lemma HereCarries(net: Net, now: Net, walk: seq<Place>, ad: Advertisement, prefix: IpNetwork, nextHop: string)
    requires walk != [] && HasCome(net, now, walk, ad) && Names(ad, prefix, nextHop)
    ensures Carries(now, walk[|walk| - 1], prefix, nextHop)
  {
    assert Holds(now, walk[|walk| - 1], ad);
  }

  /** In an idle and open network a pair gets from one place to another, in some run that injects it
      there and nothing else, exactly when a walk along the links leads there. */
  lemma CarriesIff(net: Net, source: Place, ad: Advertisement, target: Place, prefix: IpNetwork, nextHop: string)
    requires NetOk(net) && Idle(net) && Open(net) && IsPlace(net, source) && Bears(ad, prefix, nextHop)
    ensures CanCarry(net, source, ad, target, prefix, nextHop) <==> Reaches(net, source, target)
  {
    hide NetOk, Idle, Open, StartsWith, Reached, Carries, HasLink, HasCome, Names, Simple;
    if CanCarry(net, source, ad, target, prefix, nextHop) {
      var steps :| StartsWith(steps, source, ad) && Reached(net, steps).Some?
                   && Carries(Reached(net, steps).value, target, prefix, nextHop);
      CarriedAlongWalk(net, steps, source, ad, target, prefix, nextHop);
    }
    if Reaches(net, source, target) {
      var walk :| IsWalk(net, walk) && walk[0] == source && walk[|walk| - 1] == target;
      var short := Shorten(net, walk);
      var steps, last := ComesAlong(net, short, ad, prefix, nextHop);
      HereCarries(net, Reached(net, steps).value, short, last, prefix, nextHop);
    }
  }

  /** And a router other than the source stores the pair in some such run, when the advertisement does
      not also withdraw, exactly when a walk leads to it. */
  lemma LearnsIff(net: Net, source: Place, ad: Advertisement, v: nat, prefix: IpNetwork, nextHop: string)
    requires NetOk(net) && Idle(net) && Open(net) && IsPlace(net, source) && Bears(ad, prefix, nextHop)
    requires Withdrawals(ad) == [] && source != AtNode(v)
    ensures CanTeach(net, source, ad, v, prefix, nextHop) <==> Reaches(net, source, AtNode(v))
  {
    hide NetOk, Idle, Open, StartsWith, Reached, HasLink, Names, Simple, Learned, Withdrawals, Carries;
    if CanTeach(net, source, ad, v, prefix, nextHop) {
      var steps :| StartsWith(steps, source, ad) && Reached(net, steps).Some?
                   && v < |Reached(net, steps).value.nodes|
                   && Learned(Reached(net, steps).value.nodes[v], prefix, nextHop);
      LearnedIsCarried(Reached(net, steps).value, v, prefix, nextHop);
      CarriedAlongWalk(net, steps, source, ad, AtNode(v), prefix, nextHop);
    }
    if Reaches(net, source, AtNode(v)) {
      var walk :| IsWalk(net, walk) && walk[0] == source && walk[|walk| - 1] == AtNode(v);
      var short := Shorten(net, walk);
      var steps, last := ComesAlong(net, short, ad, prefix, nextHop);
      assert |short| > 1 && HasCome(net, Reached(net, steps).value, short, last);
    }
  }

  lemma LearnedIsCarried(net: Net, v: nat, prefix: IpNetwork, nextHop: string)
    requires v < |net.nodes| && Learned(net.nodes[v], prefix, nextHop)
    ensures Carries(net, AtNode(v), prefix, nextHop)
  {
  }

  // ---- wired networks ----

  /** Every link can hold an advertisement. */
  predicate RoomOnLinks(g: NetworkGraph) {
    forall j :: 0 <= j < |g.edges| ==> 1 <= g.edges[j].2.linkBufferSize
  }

  lemma WiredIsOpen(g: NetworkGraph, r: Built)
    requires Proper(g) && LoopFree(g) && Outcome(g, r) && RoomOnLinks(g)
    ensures Open(NetOf(g, r))
  {
    hide NetOf, Outcome, ChannelsOf, SessionsOf, Proper, LoopFree, NewRouter, ValueOf, OpenPort, Contains;
    var net := NetOf(g, r);
    NothingFaulty(g, r);
    assert |net.nodes| == |g.vertices| && net.channels == ChannelsOf(g.edges) by {
      NodesAre(g, r);
    }
    ChannelsAt(g.edges);
    forall v, i | 0 <= v < |net.nodes| && 0 <= i < |net.nodes[v].sessions|
      ensures OpenPort(net.nodes[v].sessions[i].port)
    {
      NodeOf(g, r, v);
      SessionsAttached(g.vertices[v].0, g.edges);
      NewPortIsOpen();
    }
  }

  lemma NewPortIsOpen()
    ensures OpenPort(NEW_PORT)
  {
  }

  lemma SessionsAt(g: NetworkGraph, r: Built, v: nat)
    requires Proper(g) && LoopFree(g) && Outcome(g, r) && v < |g.vertices|
    ensures v < |NetOf(g, r).nodes| && NetOf(g, r).nodes[v].sessions == SessionsOf(g.vertices[v].0, g.edges)
  {
    NodesAre(g, r);
    NodeOf(g, r, v);
  }

  /** Neighbours are joined through a channel. */
  lemma NeighboursAreLinked(g: NetworkGraph, r: Built, x: nat, y: nat) returns (c: nat)
    requires Proper(g) && LoopFree(g) && Outcome(g, r) && Neighbours(g, x, y)
    ensures HasLink(NetOf(g, r), AtNode(x), InChannel(c)) && HasLink(NetOf(g, r), InChannel(c), AtNode(y))
  {
    hide NetOf, Outcome, SessionsOf, Proper, Incident;
    var a, b := g.vertices[x].0, g.vertices[y].0;
    var j :| 0 <= j < |g.edges| && {g.edges[j].0, g.edges[j].1} == {a, b};
    assert a in {a, b} && b in {a, b} && g.edges[j].0 in {a, b} && g.edges[j].1 in {a, b};
    SessionsAt(g, r, x);
    SessionsAt(g, r, y);
    var i := SessionPlace(a, g.edges, j);
    var k := SessionPlace(b, g.edges, j);
    c := SessionAt(a, g.edges, j).outChannel.value;
    WiringAt(NetOf(g, r).nodes[x], i);
    WiringAt(NetOf(g, r).nodes[y], k);
  }

  /** A path of the topology is a walk along links. */
  lemma {:induction false} PathIsWalk(g: NetworkGraph, r: Built, path: seq<nat>, c: nat) returns (walk: seq<Place>)
    requires Proper(g) && LoopFree(g) && Outcome(g, r) && IsPath(g, path)
    requires HasLink(NetOf(g, r), InChannel(c), AtNode(path[0]))
    ensures IsWalk(NetOf(g, r), walk) && walk[0] == InChannel(c) && walk[|walk| - 1] == AtNode(path[|path| - 1])
    decreases |path|
  {
    hide NetOf, Outcome, Proper, LoopFree, HasLink, Neighbours;
    var n := |path| - 1;
    if n == 0 {
      walk := [InChannel(c), AtNode(path[0])];
    } else {
      assert Neighbours(g, path[n - 1], path[n]);
      assert IsPath(g, path[..n]) by {
        forall i | 0 < i < n ensures Neighbours(g, path[..n][i - 1], path[..n][i]) {
          assert Neighbours(g, path[i - 1], path[i]);
        }
      }
      walk := PathIsWalk(g, r, path[..n], c);
      var d := NeighboursAreLinked(g, r, path[n - 1], path[n]);
      ExtendWalk(NetOf(g, r), walk, InChannel(d));
      ExtendWalk(NetOf(g, r), walk + [InChannel(d)], AtNode(path[n]));
      walk := walk + [InChannel(d)] + [AtNode(path[n])];
    }
  }

  /** No two sessions of a wired network receive from the same channel. */
  lemma OneReader(edges: seq<(Uuid, Uuid, Edge)>, a: Uuid, i: nat, b: Uuid, k: nat)
    requires i < |SessionsOf(a, edges)| && k < |SessionsOf(b, edges)|
    requires SessionsOf(a, edges)[i].inChannel == SessionsOf(b, edges)[k].inChannel
    ensures a == b
  {
    hide SessionsOf, Incident;
    OneSessionPerEdge(a, edges);
    OneSessionPerEdge(b, edges);
    SharedChannel(edges, a, i, b, k);
    var j := Incident(a, edges)[i];
    assert SessionsOf(a, edges)[i] == SessionAt(a, edges, j);
    assert SessionsOf(b, edges)[k] == SessionAt(b, edges, j);
  }

  lemma OneReceiver(g: NetworkGraph, r: Built, c: nat, x: nat, y: nat)
    requires Proper(g) && LoopFree(g) && Outcome(g, r)
    requires HasLink(NetOf(g, r), InChannel(c), AtNode(x)) && HasLink(NetOf(g, r), InChannel(c), AtNode(y))
    ensures x == y && x < |g.vertices|
  {
    hide NetOf, Outcome, SessionsOf, LoopFree, Contains;
    NodesAre(g, r);
    SessionsAt(g, r, x);
    SessionsAt(g, r, y);
    var net := NetOf(g, r);
    var i :| 0 <= i < |Wiring(net.nodes[x])| && Wiring(net.nodes[x])[i].0 == Some(c);
    var k :| 0 <= k < |Wiring(net.nodes[y])| && Wiring(net.nodes[y])[k].0 == Some(c);
    OneReader(g.edges, g.vertices[x].0, i, g.vertices[y].0, k);
  }

  /** A path of the topology from one router to another. */
  ghost predicate Connected(g: NetworkGraph, x: nat, y: nat) {
    exists path: seq<nat> :: IsPath(g, path) && path[0] == x && path[|path| - 1] == y
  }

  /** Routes reach exactly the routers that paths of the topology lead to: in the network wired from
      any topology without self-loops whose links can hold an advertisement, one that bears a pair
      and withdraws nothing, injected in a channel into a router, brings the pair into another
      router's table, in some run, if and only if a path of the topology joins the two. */
  lemma LearnsIffConnected(g: NetworkGraph, r: Built, c: nat, x: nat, ad: Advertisement, y: nat,
                           prefix: IpNetwork, nextHop: string)
    requires Proper(g) && LoopFree(g) && Outcome(g, r) && RoomOnLinks(g)
    requires HasLink(NetOf(g, r), InChannel(c), AtNode(x)) && y < |g.vertices|
    requires Bears(ad, prefix, nextHop) && Withdrawals(ad) == []
    ensures NetOk(NetOf(g, r))
    ensures CanTeach(NetOf(g, r), InChannel(c), ad, y, prefix, nextHop) <==> Connected(g, x, y)
  {
    hide NetOf, Outcome, Proper, LoopFree, HasLink, CanTeach, Bears, Withdrawals, Neighbours, NetOk, Idle, Open,
         RoomOnLinks;
    var net := NetOf(g, r);
    WiredNetworkIsReady(g, r);
    WiredIsOpen(g, r);
    ChannelIsPlace(net, c, x);
    LearnsIff(net, InChannel(c), ad, y, prefix, nextHop);
    if Reaches(net, InChannel(c), AtNode(y)) {
      var walk :| IsWalk(net, walk) && walk[0] == InChannel(c) && walk[|walk| - 1] == AtNode(y);
      var path := WalkIsPath(g, r, walk, y);
      OneReceiver(g, r, c, x, path[0]);
    }
    if Connected(g, x, y) {
      var path: seq<nat> :| IsPath(g, path) && path[0] == x && path[|path| - 1] == y;
      var walk := PathIsWalk(g, r, path, c);
    }
  }

  lemma ChannelIsPlace(net: Net, c: nat, x: nat)
    requires NetOk(net) && HasLink(net, InChannel(c), AtNode(x))
    ensures IsPlace(net, InChannel(c))
  {
    var i :| 0 <= i < |Wiring(net.nodes[x])| && Wiring(net.nodes[x])[i].0 == Some(c);
    assert NodeOk(net, net.nodes[x]) && Attached(net, net.nodes[x].sessions[i]);
  }
}
