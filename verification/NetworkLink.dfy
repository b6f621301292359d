/** The links of a running network: what one session of a wired pair hands over against what the
    other was offered, over any run of the step system (src/components/interface.rs,
    src/modules/router.rs). */
module NetworkLinks {
  import opened Wrappers
  import opened RouterMaskMaps
  import opened Links
  import opened Advertisements
  import opened Interfaces
  import opened BgpSessions
  import opened Networks
  import opened NetworkWork
  import opened Topologies
  import opened NetworkManagers
  import opened Wirings

  /** Session `i` of node `x` sends into the channel, session `k` of node `y` receives from it. */
  datatype Hop = Hop(x: nat, i: nat, channel: nat, y: nat, k: nat)

  ghost predicate HasSession(net: Net, r: nat, i: nat) {
    r < |net.nodes| && i < |net.nodes[r].sessions|
  }

  /** Only those two, and they are two. */
  ghost predicate IsHop(net: Net, h: Hop) {
    && HasSession(net, h.x, h.i) && HasSession(net, h.y, h.k) && h.channel < |net.channels|
    && (h.x != h.y || h.i != h.k)
    && forall r: nat, j: nat :: HasSession(net, r, j) ==>
         && (net.nodes[r].sessions[j].outChannel == Some(h.channel) <==> r == h.x && j == h.i)
         && (net.nodes[r].sessions[j].inChannel == Some(h.channel) <==> r == h.y && j == h.k)
  }

  function Sender(net: Net, h: Hop): Port
    requires h.x < |net.nodes| && h.i < |net.nodes[h.x].sessions|
  {
    net.nodes[h.x].sessions[h.i].port
  }

  function Receiver(net: Net, h: Hop): Port
    requires h.y < |net.nodes| && h.k < |net.nodes[h.y].sessions|
  {
    net.nodes[h.y].sessions[h.k].port
  }

  function InTransit(net: Net, h: Hop): seq<Advertisement>
    requires h.channel < |net.channels|
  {
    net.channels[h.channel].messages
  }

  /** Between steps both buffers of the hop are empty. */
  ghost predicate Still(net: Net, h: Hop) {
    IsHop(net, h) && Sender(net, h).outgoing == [] && Receiver(net, h).incoming == []
  }

  // ---- one step ----

  /** What a step offers to the hop: the sender's list as far as it passes the out-filter, or an
      injected message, which no out-filter sees. */
  function OfferedBy(net: Net, step: Step, h: Hop): seq<Advertisement>
    requires h.x < |net.nodes| && h.i < |net.nodes[h.x].sessions|
  {
    match step
    case SendTo(r, i) => if r == h.x && i == h.i then Filter(net.nodes[h.x].ads, Sender(net, h).outFilter) else []
    case InjectInChannel(c, ad) => if c == h.channel then [ad] else []
    case _ => []
  }

  /** What a step hands over from the hop. */
  ghost function HandedBy(net: Net, step: Step, h: Hop): seq<Advertisement>
    requires NetOk(net) && IsHop(net, h)
  {
    if step == ReceiveFrom(h.y, h.k) then Arriving(EndAt(net, h.y, h.k)) else []
  }

  /** A send puts on the channel, in order, only what passes the filter. */
  lemma {:induction false} TransmitFiltered<T>(outgoing: seq<T>, queue: seq<T>, cap: nat, f: T -> bool)
    ensures Subseq(Transmitted(outgoing, queue, cap, f), queue + Filter(outgoing, f))
    decreases |outgoing|
  {
    if outgoing == [] {
      assert queue + [] == queue;
      SubseqRefl(queue);
    } else {
      var rest := outgoing[1..];
      if !f(outgoing[0]) {
        TransmitFiltered(rest, queue, cap, f);
        assert [] + Filter(rest, f) == Filter(rest, f);
      } else if |queue| < cap {
        TransmitFiltered(rest, queue + [outgoing[0]], cap, f);
        assert queue + [outgoing[0]] + Filter(rest, f) == queue + ([outgoing[0]] + Filter(rest, f));
      } else {
        SubseqRefl(queue);
        SubseqConcat(queue, queue, [], Filter(outgoing, f));
        assert queue + [] == queue;
      }
    }
  }

  lemma SendAdds(e: End, ads: seq<Advertisement>)
    requires EndOk(e) && e.outbound.Some? && !e.loopback && e.port.outgoing == []
    ensures var e' := AfterSend(e, ads);
            && e'.port.outgoing == [] && e'.port.incoming == e.port.incoming && e'.inbound == e.inbound
            && e'.port.inFilter == e.port.inFilter && e'.port.outFilter == e.port.outFilter && e'.outbound.Some?
            && Subseq(e'.outbound.value.messages, e.outbound.value.messages + Filter(ads, e.port.outFilter))
  {
    var q := e.outbound.value.messages;
    var n := if |ads| <= e.port.outgoingCapacity then |ads| else e.port.outgoingCapacity;
    assert ads[..|ads|] == ads && [] + ads[..n] == ads[..n];
    assert Pushed(e, ads).port.outgoing == ads[..n];
    TransmitFiltered(ads[..n], q, e.outbound.value.bound, e.port.outFilter);
    TakePrefix(ads, n);
    SubseqFilter(ads[..n], ads, e.port.outFilter);
    SubseqRefl(q);
    var sent, all := Filter(ads[..n], e.port.outFilter), Filter(ads, e.port.outFilter);
    SubseqConcat(q, q, sent, all);
    SubseqConcat(q, q, [], all);
    assert q + [] == q;
    if ads[..n] != [] {
      SubseqTrans(Transmitted(ads[..n], q, e.outbound.value.bound, e.port.outFilter), q + sent, q + all);
    }
  }

  lemma ReceiveTakes(e: End)
    requires EndOk(e) && e.inbound.Some? && !e.loopback && e.port.incoming == []
    ensures var e' := AfterReceive(e);
            && e'.port.incoming == [] && e'.port.outgoing == e.port.outgoing && e'.outbound == e.outbound
            && e'.port.inFilter == e.port.inFilter && e'.port.outFilter == e.port.outFilter && e'.inbound.Some?
            && Subseq(Arriving(e) + e'.inbound.value.messages, e.inbound.value.messages)
            && forall m <- Arriving(e) :: e.port.inFilter(m)
  {
    var q := e.inbound.value.messages;
    ReceiveOrder(q, [], e.port.incomingCapacity, e.port.inFilter);
    assert [] + q == q;
  }

  /** What a send and a receive leave alone at any end. */
  lemma StagesLeave(e: End, ads: seq<Advertisement>)
    requires EndOk(e)
    ensures var e' := AfterSend(e, ads);
            && e'.port.incoming == e.port.incoming && (!e.loopback ==> e'.inbound == e.inbound)
            && e'.port.inFilter == e.port.inFilter && e'.port.outFilter == e.port.outFilter
    ensures var e' := AfterReceive(e);
            && e'.port.outgoing == e.port.outgoing && (!e.loopback ==> e'.outbound == e.outbound)
            && e'.port.inFilter == e.port.inFilter && e'.port.outFilter == e.port.outFilter
  {
  }

  /** What a step does to a hop. */
  ghost predicate HopSteps(net: Net, after: Net, step: Step, h: Hop)
    requires NetOk(net) && IsHop(net, h)
  {
    && Still(after, h)
    && Sender(after, h).outFilter == Sender(net, h).outFilter
    && Receiver(after, h).inFilter == Receiver(net, h).inFilter
    && Subseq(HandedBy(net, step, h) + InTransit(after, h), InTransit(net, h) + OfferedBy(net, step, h))
    && forall m <- HandedBy(net, step, h) :: Receiver(net, h).inFilter(m)
  }

  lemma SameHop(a: Net, b: Net, h: Hop)
    requires SameWiring(a, b) && IsHop(a, h)
    ensures IsHop(b, h)
  {
    forall r: nat, j: nat | HasSession(b, r, j)
      ensures HasSession(a, r, j)
      ensures b.nodes[r].sessions[j].inChannel == a.nodes[r].sessions[j].inChannel
      ensures b.nodes[r].sessions[j].outChannel == a.nodes[r].sessions[j].outChannel
    {
      assert Wiring(a.nodes[r])[j] == Wiring(b.nodes[r])[j];
    }
    assert |Wiring(a.nodes[h.x])| == |Wiring(b.nodes[h.x])| && |Wiring(a.nodes[h.y])| == |Wiring(b.nodes[h.y])|;
  }

  lemma SubseqNothing<T>(q: seq<T>)
    ensures Subseq([] + q, q + [])
  {
    SubseqRefl(q);
    assert [] + q == q && q + [] == q;
  }

  lemma NotLoopback(net: Net, h: Hop)
    requires NetOk(net) && IsHop(net, h)
    ensures HasSession(net, h.x, h.i) && HasSession(net, h.y, h.k) && h.channel < |net.channels|
    ensures !EndAt(net, h.x, h.i).loopback && EndAt(net, h.x, h.i).outbound.Some?
    ensures !EndAt(net, h.y, h.k).loopback && EndAt(net, h.y, h.k).inbound.Some?
    ensures EndAt(net, h.x, h.i).outbound.value == EndAt(net, h.y, h.k).inbound.value == net.channels[h.channel]
  {
    assert HasSession(net, h.x, h.i) && HasSession(net, h.y, h.k);
  }

  /** Where writing an end back leaves a channel. */
  lemma DetachChannel(net: Net, r: nat, i: nat, e: End, c: nat)
    requires HasSession(net, r, i) && c < |net.channels|
    ensures var s, after := net.nodes[r].sessions[i], Detach(net, r, i, e);
            && |after.channels| == |net.channels|
            && (s.outChannel == Some(c) && e.outbound.Some? ==> after.channels[c] == e.outbound.value)
            && (s.outChannel != Some(c) && s.inChannel == Some(c) && e.inbound.Some? ==>
                  after.channels[c] == e.inbound.value)
            && (s.outChannel != Some(c) && s.inChannel != Some(c) ==> after.channels[c] == net.channels[c])
  {
  }

  /** Writing an end back changes the port of its own session only. */
  lemma DetachPorts(net: Net, r: nat, i: nat, e: End, h: Hop)
    requires IsHop(net, h) && HasSession(net, r, i)
    ensures var after := Detach(net, r, i, e);
            && HasSession(after, h.x, h.i) && HasSession(after, h.y, h.k) && |after.channels| == |net.channels|
            && Sender(after, h) == (if r == h.x && i == h.i then e.port else Sender(net, h))
            && Receiver(after, h) == (if r == h.y && i == h.k then e.port else Receiver(net, h))
  {
  }

  /** The hop after a step that writes one end back. */
  lemma DetachHop(net: Net, r: nat, i: nat, e: End, h: Hop)
    requires NetOk(net) && IsHop(net, h) && HasSession(net, r, i)
    requires var was := EndAt(net, r, i);
             && (e.inbound.Some? <==> was.inbound.Some?) && (e.outbound.Some? <==> was.outbound.Some?)
             && (i == h.k && r == h.y ==> !was.loopback) && (i == h.i && r == h.x ==> !was.loopback)
    ensures InTransit(Detach(net, r, i, e), h)
         == if r == h.x && i == h.i then (if e.outbound.Some? then e.outbound.value.messages else [])
            else if r == h.y && i == h.k then (if e.inbound.Some? then e.inbound.value.messages else [])
            else InTransit(net, h)
  {
    NotLoopback(net, h);
    DetachChannel(net, r, i, e, h.channel);
  }

  lemma SendWrites(net: Net, r: nat, i: nat)
    requires NetOk(net) && HasSession(net, r, i)
    ensures Possible(net, SendTo(r, i)) && EndOk(EndAt(net, r, i))
    ensures Take(net, SendTo(r, i)) == Detach(net, r, i, AfterSend(EndAt(net, r, i), net.nodes[r].ads))
  {
    EndOfOk(net, r, i);
  }

  lemma SendHop(net: Net, r: nat, i: nat, h: Hop)
    requires NetOk(net) && Still(net, h) && HasSession(net, r, i)
    ensures HopSteps(net, Take(net, SendTo(r, i)), SendTo(r, i), h)
  {
    hide AfterSend, NetOk, Take, Detach, Possible, IsHop, SameWiring, EndAt;
    var step := SendTo(r, i);
    SendWrites(net, r, i);
    TakeOk(net, step);
    SameHop(net, Take(net, step), h);
    NotLoopback(net, h);
    var e, ads := EndAt(net, r, i), net.nodes[r].ads;
    StagesLeave(e, ads);
    DetachPorts(net, r, i, AfterSend(e, ads), h);
    OutboundStays(e, ads);
    DetachHop(net, r, i, AfterSend(e, ads), h);
    PortsAt(net, r, i);
    SubseqNothing(InTransit(net, h));
    if r == h.x && i == h.i {
      SendAdds(e, ads);
      SubseqNothing(InTransit(Take(net, step), h));
      assert [] + InTransit(Take(net, step), h) == InTransit(Take(net, step), h);
    }
  }

  lemma OutboundStays(e: End, ads: seq<Advertisement>)
    requires EndOk(e)
    ensures AfterSend(e, ads).outbound.Some? <==> e.outbound.Some?
    ensures AfterSend(e, ads).inbound.Some? <==> e.inbound.Some?
    ensures AfterReceive(e).outbound.Some? <==> e.outbound.Some?
    ensures AfterReceive(e).inbound.Some? <==> e.inbound.Some?
  {
  }

  lemma InboxOnly(net: Net, r: nat, n: Node, h: Hop)
    requires HasSession(net, h.x, h.i) && HasSession(net, h.y, h.k) && h.channel < |net.channels|
    requires r < |net.nodes| && n.sessions == net.nodes[r].sessions
    ensures var after := WithNode(net, r, n);
            && HasSession(after, h.x, h.i) && HasSession(after, h.y, h.k) && after.channels == net.channels
            && Sender(after, h) == Sender(net, h) && Receiver(after, h) == Receiver(net, h)
  {
  }

  lemma ReceiveWrites(net: Net, r: nat, i: nat)
    requires NetOk(net) && HasSession(net, r, i)
    ensures Possible(net, ReceiveFrom(r, i)) && EndOk(EndAt(net, r, i))
    ensures var e := EndAt(net, r, i);
            var written := Detach(net, r, i, AfterReceive(e));
            && r < |written.nodes|
            && Take(net, ReceiveFrom(r, i))
               == WithNode(written, r, written.nodes[r].(inbox := net.nodes[r].inbox + Arriving(e)))
  {
    EndOfOk(net, r, i);
  }

  lemma ReceiveHop(net: Net, r: nat, i: nat, h: Hop)
    requires NetOk(net) && Still(net, h) && HasSession(net, r, i)
    ensures HopSteps(net, Take(net, ReceiveFrom(r, i)), ReceiveFrom(r, i), h)
  {
    hide AfterReceive, NetOk, Take, Detach, Arriving, Possible, IsHop, WithNode, SameWiring, EndAt;
    var step := ReceiveFrom(r, i);
    ReceiveWrites(net, r, i);
    TakeOk(net, step);
    SameHop(net, Take(net, step), h);
    NotLoopback(net, h);
    var e := EndAt(net, r, i);
    var e' := AfterReceive(e);
    StagesLeave(e, []);
    var written := Detach(net, r, i, e');
    DetachPorts(net, r, i, e', h);
    OutboundStays(e, []);
    DetachHop(net, r, i, e', h);
    InboxOnly(written, r, written.nodes[r].(inbox := net.nodes[r].inbox + Arriving(e)), h);
    SubseqNothing(InTransit(net, h));
    PortsAt(net, r, i);
    if r == h.y && i == h.k {
      ReceiveTakes(e);
      assert InTransit(net, h) + [] == InTransit(net, h);
    }
  }

  lemma PortsAt(net: Net, r: nat, i: nat)
    requires NetOk(net) && HasSession(net, r, i)
    ensures EndAt(net, r, i).port == net.nodes[r].sessions[i].port
  {
  }

  lemma InjectHop(net: Net, c: nat, ad: Advertisement, h: Hop)
    requires NetOk(net) && Still(net, h) && Possible(net, InjectInChannel(c, ad))
    ensures HopSteps(net, Take(net, InjectInChannel(c, ad)), InjectInChannel(c, ad), h)
  {
    var step := InjectInChannel(c, ad);
    TakeOk(net, step);
    var after := Take(net, step);
    SameHop(net, after, h);
    SubseqNothing(InTransit(net, h));
    if c == h.channel {
      SubseqRefl(InTransit(after, h));
      assert [] + InTransit(after, h) == InTransit(after, h);
    }
  }

  lemma SameSessions(n: Node, step: Step)
    requires CanAcquire(n.rib.alloc, n.id)
    ensures Worked(n, step).sessions == n.sessions
  {
  }

  lemma NodeHop(net: Net, step: Step, h: Hop)
    requires NetOk(net) && Still(net, h) && Possible(net, step)
    requires !step.SendTo? && !step.ReceiveFrom? && !step.InjectInChannel?
    ensures HopSteps(net, Take(net, step), step, h)
  {
    TakeOk(net, step);
    var after := Take(net, step);
    SameHop(net, after, h);
    var r := step.node;
    assert NodeOk(net, net.nodes[r]);
    SameSessions(net.nodes[r], step);
    assert after == WithNode(net, r, Worked(net.nodes[r], step));
    InboxOnly(net, r, Worked(net.nodes[r], step), h);
    hide Worked, NetOk, IsHop, Take, WithNode;
    SubseqNothing(InTransit(net, h));
  }

  lemma StepHop(net: Net, step: Step, h: Hop)
    requires NetOk(net) && Still(net, h) && Possible(net, step)
    ensures HopSteps(net, Take(net, step), step, h)
  {
    hide HopSteps, Still, Take;
    match step {
      case SendTo(r, i) => SendHop(net, r, i, h);
      case ReceiveFrom(r, i) => ReceiveHop(net, r, i, h);
      case InjectInChannel(c, ad) => InjectHop(net, c, ad, h);
      case _ => NodeHop(net, step, h);
    }
  }

  // ---- whole runs ----

  function LastOf(steps: seq<Step>): Step
    requires steps != []
  {
    steps[|steps| - 1]
  }

  /** Everything a run offers to a hop, in order. */
  ghost function Offered(net: Net, steps: seq<Step>, h: Hop): seq<Advertisement>
    requires NetOk(net) && IsHop(net, h) && Reached(net, steps).Some?
    decreases |steps|
  {
    if steps == [] then []
    else
      var before := steps[..|steps| - 1];
      SameHop(net, Reached(net, before).value, h);
      Offered(net, before, h) + OfferedBy(Reached(net, before).value, LastOf(steps), h)
  }

  /** Everything a run hands over from a hop, in order. */
  ghost function HandedOver(net: Net, steps: seq<Step>, h: Hop): seq<Advertisement>
    requires NetOk(net) && IsHop(net, h) && Reached(net, steps).Some?
    decreases |steps|
  {
    if steps == [] then []
    else
      var before := steps[..|steps| - 1];
      SameHop(net, Reached(net, before).value, h);
      HandedOver(net, before, h) + HandedBy(Reached(net, before).value, LastOf(steps), h)
  }

  lemma AppendAssoc<T>(a: seq<T>, b: seq<T>, c: seq<T>)
    ensures (a + b) + c == a + (b + c)
  {
  }

  lemma JoinSteps<T>(done: seq<T>, queue: seq<T>, offered: seq<T>, handed: seq<T>, queue': seq<T>, more: seq<T>)
    requires Subseq(done + queue, offered) && Subseq(handed + queue', queue + more)
    ensures Subseq((done + handed) + queue', offered + more)
  {
    SubseqRefl(done);
    SubseqRefl(more);
    hide Subseq;
    SubseqConcat(done, done, handed + queue', queue + more);
    SubseqConcat(done + queue, offered, more, more);
    AppendAssoc(done, handed, queue');
    AppendAssoc(done, queue, more);
    SubseqTrans((done + handed) + queue', (done + queue) + more, offered + more);
  }

  lemma {:induction false} HopKeepsOrder(net: Net, steps: seq<Step>, h: Hop)
    requires NetOk(net) && Idle(net) && IsHop(net, h) && Reached(net, steps).Some?
    ensures var now := Reached(net, steps).value;
            && Still(now, h) && Receiver(now, h).inFilter == Receiver(net, h).inFilter
            && Sender(now, h).outFilter == Sender(net, h).outFilter
            && Subseq(HandedOver(net, steps, h) + InTransit(now, h), Offered(net, steps, h))
            && forall m <- HandedOver(net, steps, h) :: Receiver(net, h).inFilter(m)
    decreases |steps|
  {
    if steps == [] {
      assert NodeIdle(net.nodes[h.x]) && NodeIdle(net.nodes[h.y]);
      assert [] + InTransit(net, h) == [];
    } else {
      var before := steps[..|steps| - 1];
      HopKeepsOrder(net, before, h);
      var was := Reached(net, before).value;
      hide IsHop, Take, Possible, OfferedBy, HandedBy, NetOk, Idle;
      StepHop(was, LastOf(steps), h);
      JoinSteps(HandedOver(net, before, h), InTransit(was, h), Offered(net, before, h),
                HandedBy(was, LastOf(steps), h), InTransit(Reached(net, steps).value, h),
                OfferedBy(was, LastOf(steps), h));
    }
  }

  /** In any network that starts idle, over any run, what one session of a hop has handed over is an
      in-order subsequence of what passed the other's out-filter when it was sent and of what was
      injected into the channel in between, filtered by the receiver's in-filter. */
  lemma {:induction false} HandedOverInOrder(net: Net, steps: seq<Step>, h: Hop)
    requires NetOk(net) && Idle(net) && IsHop(net, h) && Reached(net, steps).Some?
    ensures Subseq(HandedOver(net, steps, h), Filter(Offered(net, steps, h), Receiver(net, h).inFilter))
  {
    HopKeepsOrder(net, steps, h);
    hide HandedOver, Offered, Reached, IsHop, Idle, NetOk;
    var done, queue := HandedOver(net, steps, h), InTransit(Reached(net, steps).value, h);
    SubseqRefl(done);
    SubseqConcat(done, done, [], queue);
    assert done + [] == done;
    SubseqTrans(done, done + queue, Offered(net, steps, h));
    SubseqFilter(done, Offered(net, steps, h), Receiver(net, h).inFilter);
    FilterAll(done, Receiver(net, h).inFilter);
  }

  // ---- wired networks ----

  /** No two sessions of a wired network send into the same channel. */
  lemma OneSender(edges: seq<(Uuid, Uuid, Edge)>, a: Uuid, i: nat, b: Uuid, k: nat)
    requires i < |SessionsOf(a, edges)| && k < |SessionsOf(b, edges)|
    requires SessionsOf(a, edges)[i].outChannel == SessionsOf(b, edges)[k].outChannel
    ensures a == b && i == k
  {
    OneSessionPerEdge(a, edges);
    OneSessionPerEdge(b, edges);
    SharedChannel(edges, a, i, b, k);
    var j := Incident(a, edges)[i];
    assert SessionsOf(a, edges)[i] == SessionAt(a, edges, j) && SessionsOf(b, edges)[k] == SessionAt(b, edges, j);
  }

  lemma VertexOf(g: NetworkGraph, r: Built, x: nat)
    requires Proper(g) && LoopFree(g) && Outcome(g, r)
    requires x < |NetOf(g, r).nodes|
    ensures x < |g.vertices| && NetOf(g, r).nodes[x].sessions == SessionsOf(g.vertices[x].0, g.edges)
    ensures NetOf(g, r).channels == ChannelsOf(g.edges)
    ensures forall y :: 0 <= y < |g.vertices| && g.vertices[y].0 == g.vertices[x].0 ==> y == x
  {
    NodeOf(g, r, x);
  }

  /** Every session of a wired network sends over a hop, to a neighbour in the topology. */
  lemma WiredHop(g: NetworkGraph, r: Built, x: nat, i: nat) returns (h: Hop)
    requires Proper(g) && LoopFree(g) && Outcome(g, r) && HasSession(NetOf(g, r), x, i)
    ensures IsHop(NetOf(g, r), h) && h.x == x && h.i == i && Neighbours(g, x, h.y)
    ensures NetOf(g, r).nodes[h.y].sessions[h.k].outChannel == NetOf(g, r).nodes[x].sessions[i].inChannel
  {
    hide NetOf, Outcome, SessionsOf, ChannelsOf;
    var net, edges := NetOf(g, r), g.edges;
    VertexOf(g, r, x);
    var a := g.vertices[x].0;
    var b, k := OppositeSession(edges, a, i);
    var j :| 0 <= j < |edges| && {edges[j].0, edges[j].1} == {a, b};
    assert Contains(g, b) by {
      assert b in {edges[j].0, edges[j].1};
    }
    var y := Position(g.vertices, b);
    NodesAre(g, r);
    VertexOf(g, r, y);
    SessionsAttached(a, edges);
    ChannelsAt(edges);
    h := Hop(x, i, SessionsOf(a, edges)[i].outChannel.value, y, k);
    forall q: nat, m: nat | HasSession(net, q, m)
      ensures net.nodes[q].sessions[m].outChannel == Some(h.channel) <==> q == x && m == i
      ensures net.nodes[q].sessions[m].inChannel == Some(h.channel) <==> q == y && m == k
    {
      VertexOf(g, r, q);
      if net.nodes[q].sessions[m].outChannel == Some(h.channel) {
        OneSender(edges, a, i, g.vertices[q].0, m);
      }
    }
  }

  /** In the network wired from any topology without self-loops, over any run, every session's
      neighbour is handed an in-order subsequence of what passed the session's out-filter and of what
      was injected into the channel, filtered by the neighbour's in-filter. */
  lemma WiredLinksKeepOrder(g: NetworkGraph, r: Built, steps: seq<Step>, x: nat, i: nat) returns (h: Hop)
    requires Proper(g) && LoopFree(g) && Outcome(g, r) && HasSession(NetOf(g, r), x, i)
    requires (WiredNetworkIsReady(g, r); Reached(NetOf(g, r), steps).Some?)
    ensures IsHop(NetOf(g, r), h) && h.x == x && h.i == i && Neighbours(g, x, h.y)
    ensures NetOk(NetOf(g, r))
    ensures Subseq(HandedOver(NetOf(g, r), steps, h),
                   Filter(Offered(NetOf(g, r), steps, h), Receiver(NetOf(g, r), h).inFilter))
  {
    hide NetOf, Outcome, Proper, LoopFree, IsHop, HandedOver, Offered, Neighbours;
    WiredNetworkIsReady(g, r);
    h := WiredHop(g, r, x, i);
    HandedOverInOrder(NetOf(g, r), steps, h);
  }

  /** The two sessions of a hop start as a linked and unused pair, so the laws of pairs hold of every
      interleaving of their sends and receives. */
  lemma WiredPairIsLinked(g: NetworkGraph, r: Built, x: nat, i: nat) returns (h: Hop)
    requires Proper(g) && LoopFree(g) && Outcome(g, r) && HasSession(NetOf(g, r), x, i)
    ensures IsHop(NetOf(g, r), h) && h.x == x && h.i == i && NetOk(NetOf(g, r))
    ensures var p := Pair(EndAt(NetOf(g, r), x, i), EndAt(NetOf(g, r), h.y, h.k), [], []); Linked(p) && Unused(p)
  {
    hide Outcome, Proper, LoopFree, SessionsOf, ChannelsOf, NetOf;
    WiredNetworkIsReady(g, r);
    var net := NetOf(g, r);
    h := WiredHop(g, r, x, i);
    NewSession(g, r, x, i);
    NewSession(g, r, h.y, h.k);
    EndOfOk(net, x, i);
    EndOfOk(net, h.y, h.k);
    assert Idle(net);
    hide NetOk, IsHop;
  }

  lemma NewSession(g: NetworkGraph, r: Built, x: nat, i: nat)
    requires Proper(g) && LoopFree(g) && Outcome(g, r) && HasSession(NetOf(g, r), x, i)
    ensures var s := NetOf(g, r).nodes[x].sessions[i]; s.port == NEW_PORT && s.inChannel.Some? && s.outChannel.Some?
    ensures NetOf(g, r).nodes[x].sessions[i].inChannel != NetOf(g, r).nodes[x].sessions[i].outChannel
  {
    hide Outcome, NetOf;
    VertexOf(g, r, x);
    SessionsAttached(g.vertices[x].0, g.edges);
    OneSessionPerEdge(g.vertices[x].0, g.edges);
  }
}
