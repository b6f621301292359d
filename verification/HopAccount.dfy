/** The account of a hop in a running network: what was offered to it is handed over, is under way, is
    rejected by the receiver's filter, or fell at one of three full buffers
    (src/components/interface.rs). */
module HopAccounts {
  import opened Wrappers
  import opened Links
  import LinkRuns
  import opened Advertisements
  import opened Interfaces
  import opened Networks
  import opened NetworkWork
  import opened Topologies
  import opened NetworkManagers
  import opened Wirings
  import opened NetworkLinks

  // ---- one end ----

  /** What a send drops although the out-filter passes it: at the full buffer, then at the full channel. */
  function DroppedBySend(e: End, ads: seq<Advertisement>): seq<Advertisement>
    requires EndOk(e) && e.outbound.Some?
  {
    var p, q := e.port, e.outbound.value;
    var room := p.outgoingCapacity - |p.outgoing|;
    Filter(if |ads| <= room then [] else ads[room..], p.outFilter)
    + Filter(RefusedByChannel(Accepted(p.outgoing, p.outgoingCapacity, ads), q.messages, q.bound, p.outFilter),
             p.outFilter)
  }

  /** What a receive takes from the channel and drops, at the full buffer. */
  function DroppedByReceive(e: End): seq<Advertisement>
    requires e.inbound.Some?
  {
    RefusedByBuffer(e.inbound.value.messages, e.port.incoming, e.port.incomingCapacity, e.port.inFilter)
  }

  function Count(s: seq<Advertisement>, m: Advertisement): nat {
    multiset(s)[m]
  }

  lemma CountJoin(a: seq<Advertisement>, b: seq<Advertisement>, m: Advertisement)
    ensures Count(a + b, m) == Count(a, m) + Count(b, m)
  {
    MultisetJoin(a, b);
  }

  lemma CountAbsent(s: seq<Advertisement>, m: Advertisement)
    ensures m in s <==> Count(s, m) > 0
  {
  }

  /** Every message that passes the filter is in the channel or refused by it. */
  lemma {:induction false} TransmitCounts(outgoing: seq<Advertisement>, queue: seq<Advertisement>, cap: nat,
                                          f: Advertisement -> bool, m: Advertisement)
    ensures Count(Transmitted(outgoing, queue, cap, f), m)
            + Count(Filter(RefusedByChannel(outgoing, queue, cap, f), f), m)
         == Count(queue, m) + Count(Filter(outgoing, f), m)
    decreases |outgoing|
  {
    hide Count;
    if outgoing == [] {
      CountAbsent([], m);
    } else {
      var rest := outgoing[1..];
      if !f(outgoing[0]) {
        TransmitCounts(rest, queue, cap, f, m);
        assert [] + Filter(rest, f) == Filter(rest, f);
      } else if |queue| < cap {
        TransmitCounts(rest, queue + [outgoing[0]], cap, f, m);
        CountJoin(queue, [outgoing[0]], m);
        CountJoin([outgoing[0]], Filter(rest, f), m);
      }
    }
  }

  /** A send into an empty outgoing buffer: what it takes in, and where that goes. */
  lemma SendParts(e: End, ads: seq<Advertisement>) returns (n: nat)
    requires EndOk(e) && e.outbound.Some? && e.port.outgoing == []
    ensures n == if |ads| <= e.port.outgoingCapacity then |ads| else e.port.outgoingCapacity
    ensures var p, q := e.port, e.outbound.value;
            && AfterSend(e, ads).outbound.Some?
            && AfterSend(e, ads).outbound.value.messages == Transmitted(ads[..n], q.messages, q.bound, p.outFilter)
            && DroppedBySend(e, ads) == Filter(ads[n..], p.outFilter)
               + Filter(RefusedByChannel(ads[..n], q.messages, q.bound, p.outFilter), p.outFilter)
    ensures Filter(ads, e.port.outFilter) == Filter(ads[..n], e.port.outFilter) + Filter(ads[n..], e.port.outFilter)
  {
    var p, q := e.port, e.outbound.value;
    n := if |ads| <= p.outgoingCapacity then |ads| else p.outgoingCapacity;
    TransmitNothing(q.messages, q.bound, p.outFilter);
    hide Filter, Transmitted, RefusedByChannel;
    assert ads[..n] + ads[n..] == ads && [] + ads[..n] == ads[..n] && ads[..|ads|] == ads && ads[|ads|..] == [];
    assert Accepted(p.outgoing, p.outgoingCapacity, ads) == ads[..n];
    FilterAppend(ads[..n], ads[n..], p.outFilter);
  }

  lemma SendCounts(e: End, ads: seq<Advertisement>, m: Advertisement)
    requires EndOk(e) && e.outbound.Some? && e.port.outgoing == []
    ensures AfterSend(e, ads).outbound.Some?
    ensures Count(AfterSend(e, ads).outbound.value.messages, m) + Count(DroppedBySend(e, ads), m)
         == Count(e.outbound.value.messages, m) + Count(Filter(ads, e.port.outFilter), m)
  {
    hide Count, Filter, Transmitted, RefusedByChannel, DroppedBySend, AfterSend;
    var p, q := e.port, e.outbound.value;
    var n := SendParts(e, ads);
    TransmitCounts(ads[..n], q.messages, q.bound, p.outFilter, m);
    CountJoin(Filter(ads[..n], p.outFilter), Filter(ads[n..], p.outFilter), m);
    CountJoin(Filter(ads[n..], p.outFilter),
              Filter(RefusedByChannel(ads[..n], q.messages, q.bound, p.outFilter), p.outFilter), m);
  }

  lemma TransmitNothing(queue: seq<Advertisement>, cap: nat, f: Advertisement -> bool)
    ensures Transmitted([], queue, cap, f) == queue
  {
  }

  lemma ReceiveCounts(e: End, m: Advertisement)
    requires EndOk(e) && e.inbound.Some? && e.port.incoming == [] && e.port.inFilter(m)
    ensures AfterReceive(e).inbound.Some?
    ensures Count(Arriving(e), m) + Count(AfterReceive(e).inbound.value.messages, m) + Count(DroppedByReceive(e), m)
         == Count(e.inbound.value.messages, m)
  {
    hide Received, RefusedByBuffer, FilteredIn;
    var p, q := e.port, e.inbound.value.messages;
    ReceiveAccounts(q, [], p.incomingCapacity, p.inFilter);
    var kept := Received(q, [], p.incomingCapacity, p.inFilter);
    var dropped := RefusedByBuffer(q, [], p.incomingCapacity, p.inFilter);
    var rejected := FilteredIn(q, [], p.incomingCapacity, p.inFilter);
    assert m !in rejected;
    var none: seq<Advertisement> := [];
    assert (multiset(none) + multiset(q))[m]
        == (multiset(kept.1) + multiset(kept.0) + multiset(dropped) + multiset(rejected))[m];
  }

  // ---- one step ----

  /** What a step drops from the hop at a full buffer. */
  ghost function DroppedBy(net: Net, step: Step, h: Hop): seq<Advertisement>
    requires NetOk(net) && IsHop(net, h)
  {
    NotLoopback(net, h);
    EndOfOk(net, h.x, h.i);
    if step == SendTo(h.x, h.i) then DroppedBySend(EndAt(net, h.x, h.i), net.nodes[h.x].ads)
    else if step == ReceiveFrom(h.y, h.k) then DroppedByReceive(EndAt(net, h.y, h.k))
    else []
  }

  lemma SendAccount(net: Net, r: nat, i: nat, h: Hop, m: Advertisement)
    requires NetOk(net) && Still(net, h) && HasSession(net, r, i)
    ensures var step := SendTo(r, i);
            && Possible(net, step) && h.channel < |Take(net, step).channels|
            && Count(HandedBy(net, step, h), m) + Count(InTransit(Take(net, step), h), m)
               + Count(DroppedBy(net, step, h), m)
               == Count(InTransit(net, h), m) + Count(OfferedBy(net, step, h), m)
  {
    hide AfterSend, NetOk, Take, Detach, Possible, IsHop, SameWiring, EndAt, Count, DroppedBySend, DroppedByReceive,
         InTransit;
    SendWrites(net, r, i);
    NotLoopback(net, h);
    var e, ads := EndAt(net, r, i), net.nodes[r].ads;
    OutboundStays(e, ads);
    StagesLeave(e, ads);
    DetachHop(net, r, i, AfterSend(e, ads), h);
    DetachPorts(net, r, i, AfterSend(e, ads), h);
    PortsAt(net, r, i);
    CountAbsent([], m);
    TransitIs(net, h);
    if r == h.x && i == h.i {
      SendCounts(e, ads, m);
    }
  }

  lemma TransitIs(net: Net, h: Hop)
    requires h.channel < |net.channels|
    ensures InTransit(net, h) == net.channels[h.channel].messages
  {
  }

  lemma ReceiveAccount(net: Net, r: nat, i: nat, h: Hop, m: Advertisement)
    requires NetOk(net) && Still(net, h) && HasSession(net, r, i) && Receiver(net, h).inFilter(m)
    ensures var step := ReceiveFrom(r, i);
            && Possible(net, step) && h.channel < |Take(net, step).channels|
            && Count(HandedBy(net, step, h), m) + Count(InTransit(Take(net, step), h), m)
               + Count(DroppedBy(net, step, h), m)
               == Count(InTransit(net, h), m) + Count(OfferedBy(net, step, h), m)
  {
    assert h.x != h.y || h.i != h.k;
    hide AfterReceive, NetOk, Take, Detach, Arriving, Possible, IsHop, WithNode, SameWiring, EndAt, Count,
         DroppedBySend, DroppedByReceive, InTransit;
    ReceiveWrites(net, r, i);
    NotLoopback(net, h);
    var e := EndAt(net, r, i);
    var e' := AfterReceive(e);
    StagesLeave(e, []);
    OutboundStays(e, []);
    var written := Detach(net, r, i, e');
    DetachPorts(net, r, i, e', h);
    DetachHop(net, r, i, e', h);
    InboxOnly(written, r, written.nodes[r].(inbox := net.nodes[r].inbox + Arriving(e)), h);
    PortsAt(net, r, i);
    CountAbsent([], m);
    TransitIs(net, h);
    TransitIs(written, h);
    TransitIs(Take(net, ReceiveFrom(r, i)), h);
    if r == h.y && i == h.k {
      ReceiveCounts(e, m);
    }
  }

  lemma OtherAccount(net: Net, step: Step, h: Hop, m: Advertisement)
    requires NetOk(net) && Still(net, h) && Possible(net, step) && !step.SendTo? && !step.ReceiveFrom?
    ensures h.channel < |Take(net, step).channels|
    ensures Count(HandedBy(net, step, h), m) + Count(InTransit(Take(net, step), h), m)
            + Count(DroppedBy(net, step, h), m)
         == Count(InTransit(net, h), m) + Count(OfferedBy(net, step, h), m)
  {
    hide Count, Worked, Filter;
    CountAbsent([], m);
    if step.InjectInChannel? {
      CountJoin(net.channels[step.channel].messages, [step.ad], m);
    }
  }

  lemma StepAccount(net: Net, step: Step, h: Hop, m: Advertisement)
    requires NetOk(net) && Still(net, h) && Possible(net, step) && Receiver(net, h).inFilter(m)
    ensures h.channel < |Take(net, step).channels|
    ensures Count(HandedBy(net, step, h), m) + Count(InTransit(Take(net, step), h), m)
            + Count(DroppedBy(net, step, h), m)
         == Count(InTransit(net, h), m) + Count(OfferedBy(net, step, h), m)
  {
    hide Take, HandedBy, InTransit, DroppedBy, OfferedBy, Count, NetOk, IsHop;
    match step {
      case SendTo(r, i) => SendAccount(net, r, i, h, m);
      case ReceiveFrom(r, i) => ReceiveAccount(net, r, i, h, m);
      case _ => OtherAccount(net, step, h, m);
    }
  }

  // ---- whole runs ----

  /** Everything a run drops from a hop at a full buffer. */
  ghost function Dropped(net: Net, steps: seq<Step>, h: Hop): seq<Advertisement>
    requires NetOk(net) && IsHop(net, h) && Reached(net, steps).Some?
    decreases |steps|
  {
    if steps == [] then []
    else
      var before := steps[..|steps| - 1];
      SameHop(net, Reached(net, before).value, h);
      Dropped(net, before, h) + DroppedBy(Reached(net, before).value, LastOf(steps), h)
  }

  /** The account of a hop over any run: a message that passes the receiver's filter was offered as
      often as it was handed over, is under way, or was dropped at a full buffer. */
  lemma {:induction false} HopAccount(net: Net, steps: seq<Step>, h: Hop, m: Advertisement)
    requires NetOk(net) && Idle(net) && IsHop(net, h) && Reached(net, steps).Some? && Receiver(net, h).inFilter(m)
    ensures h.channel < |Reached(net, steps).value.channels|
    ensures Count(Offered(net, steps, h), m)
         == Count(HandedOver(net, steps, h), m) + Count(InTransit(Reached(net, steps).value, h), m)
          + Count(Dropped(net, steps, h), m)
    decreases |steps|
  {
    if steps == [] {
      CountAbsent([], m);
    } else {
      var before := steps[..|steps| - 1];
      HopAccount(net, before, h, m);
      HopKeepsOrder(net, before, h);
      var was, step := Reached(net, before).value, LastOf(steps);
      hide IsHop, Take, Possible, OfferedBy, HandedBy, DroppedBy, NetOk, Idle, Count, InTransit;
      StepAccount(was, step, h, m);
      CountJoin(Offered(net, before, h), OfferedBy(was, step, h), m);
      CountJoin(HandedOver(net, before, h), HandedBy(was, step, h), m);
      CountJoin(Dropped(net, before, h), DroppedBy(was, step, h), m);
    }
  }

  /** What a hop has handed over, followed by what is under way and will pass the receiver's filter. */
  ghost function PassedOrPassing(net: Net, steps: seq<Step>, h: Hop): seq<Advertisement>
    requires NetOk(net) && IsHop(net, h) && Reached(net, steps).Some?
    requires h.channel < |Reached(net, steps).value.channels|
  {
    HandedOver(net, steps, h) + Filter(InTransit(Reached(net, steps).value, h), Receiver(net, h).inFilter)
  }

  lemma PassingCount(net: Net, steps: seq<Step>, h: Hop, m: Advertisement)
    requires NetOk(net) && Idle(net) && IsHop(net, h) && Reached(net, steps).Some?
    ensures h.channel < |Reached(net, steps).value.channels|
    ensures var f := Receiver(net, h).inFilter;
            Count(Filter(Offered(net, steps, h), f), m)
            == Count(PassedOrPassing(net, steps, h), m) + if f(m) then Count(Dropped(net, steps, h), m) else 0
  {
    HopKeepsOrder(net, steps, h);
    var f, transit := Receiver(net, h).inFilter, InTransit(Reached(net, steps).value, h);
    hide Filter, HandedOver, Offered, Dropped, Reached, IsHop, Idle, NetOk, InTransit;
    LinkRuns.FilterBag(Offered(net, steps, h), f, m);
    LinkRuns.FilterBag(transit, f, m);
    CountJoin(HandedOver(net, steps, h), Filter(transit, f), m);
    if f(m) {
      HopAccount(net, steps, h, m);
    } else {
      CountAbsent(HandedOver(net, steps, h), m);
    }
  }

  lemma PassingIsOrdered(net: Net, steps: seq<Step>, h: Hop)
    requires NetOk(net) && Idle(net) && IsHop(net, h) && Reached(net, steps).Some?
    ensures h.channel < |Reached(net, steps).value.channels|
    ensures Subseq(PassedOrPassing(net, steps, h), Filter(Offered(net, steps, h), Receiver(net, h).inFilter))
  {
    HopKeepsOrder(net, steps, h);
    hide HandedOver, Offered, Reached, IsHop, Idle, NetOk, Subseq, InTransit;
    var f := Receiver(net, h).inFilter;
    var done, queue := HandedOver(net, steps, h), InTransit(Reached(net, steps).value, h);
    SubseqFilter(done + queue, Offered(net, steps, h), f);
    FilterAppend(done, queue, f);
    FilterAll(done, f);
  }

  /** A hop is complete exactly when nothing that passes was dropped: over any run, what was handed
      over and is under way is all that was offered and passes the receiver's filter, in order and
      each once, if and only if nothing that passes fell at one of the three full buffers. */
  lemma HopIsCompleteIff(net: Net, steps: seq<Step>, h: Hop)
    requires NetOk(net) && Idle(net) && IsHop(net, h) && Reached(net, steps).Some?
    ensures h.channel < |Reached(net, steps).value.channels|
    ensures PassedOrPassing(net, steps, h) == Filter(Offered(net, steps, h), Receiver(net, h).inFilter)
       <==> forall m <- Dropped(net, steps, h) :: !Receiver(net, h).inFilter(m)
  {
    PassingIsOrdered(net, steps, h);
    var f := Receiver(net, h).inFilter;
    hide Filter, HandedOver, Offered, Dropped, Reached, IsHop, Idle, NetOk, PassedOrPassing, Count, Subseq;
    forall m
      ensures Count(Filter(Offered(net, steps, h), f), m)
           == Count(PassedOrPassing(net, steps, h), m) + if f(m) then Count(Dropped(net, steps, h), m) else 0
    {
      PassingCount(net, steps, h, m);
    }
    CompleteByCounts(PassedOrPassing(net, steps, h), Filter(Offered(net, steps, h), f), Dropped(net, steps, h), f);
  }

  lemma CompleteByCounts(a: seq<Advertisement>, b: seq<Advertisement>, dropped: seq<Advertisement>,
                         f: Advertisement -> bool)
    requires Subseq(a, b) && forall m :: Count(b, m) == Count(a, m) + if f(m) then Count(dropped, m) else 0
    ensures a == b <==> forall m <- dropped :: !f(m)
  {
    if forall m <- dropped :: !f(m) {
      forall m ensures multiset(a)[m] == multiset(b)[m] {
        CountAbsent(dropped, m);
        assert Count(b, m) == Count(a, m);
      }
      LinkRuns.BagSize(a, b);
      SubseqSameLength(a, b);
    } else {
      var m :| m in dropped && f(m);
      CountAbsent(dropped, m);
      assert Count(b, m) != Count(a, m);
    }
  }

  // ---- room ----

  /** What passes the filters fits the buffers and the channel it meets in the step. */
  ghost predicate HasRoom(net: Net, step: Step, h: Hop)
    requires NetOk(net) && IsHop(net, h)
  {
    var p, ads := Sender(net, h), net.nodes[h.x].ads;
    var n := if |ads| <= p.outgoingCapacity then |ads| else p.outgoingCapacity;
    && (step == SendTo(h.x, h.i) ==>
          && Filter(ads[n..], p.outFilter) == []
          && |InTransit(net, h)| + |Filter(ads, p.outFilter)| <= net.channels[h.channel].bound)
    && (step == ReceiveFrom(h.y, h.k) ==>
          |Filter(InTransit(net, h), Receiver(net, h).inFilter)| <= Receiver(net, h).incomingCapacity)
  }

  lemma {:induction false} RefusedPasses(outgoing: seq<Advertisement>, queue: seq<Advertisement>, cap: nat,
                                         f: Advertisement -> bool)
    ensures Filter(RefusedByChannel(outgoing, queue, cap, f), f) == []
       <==> RefusedByChannel(outgoing, queue, cap, f) == []
    decreases |outgoing|
  {
    if outgoing != [] {
      if !f(outgoing[0]) {
        RefusedPasses(outgoing[1..], queue, cap, f);
      } else if |queue| < cap {
        RefusedPasses(outgoing[1..], queue + [outgoing[0]], cap, f);
      }
    }
  }

  lemma SendDropsIff(e: End, ads: seq<Advertisement>)
    requires EndOk(e) && e.outbound.Some? && e.port.outgoing == []
    ensures var p, q := e.port, e.outbound.value;
            var n := if |ads| <= p.outgoingCapacity then |ads| else p.outgoingCapacity;
            DroppedBySend(e, ads) == [] <==>
              Filter(ads[n..], p.outFilter) == [] && |q.messages| + |Filter(ads, p.outFilter)| <= q.bound
  {
    hide Filter, RefusedByChannel, DroppedBySend, AfterSend;
    var p, q := e.port, e.outbound.value;
    var n := SendParts(e, ads);
    TransmitFitsIff(ads[..n], q.messages, q.bound, p.outFilter);
    RefusedPasses(ads[..n], q.messages, q.bound, p.outFilter);
  }

  lemma StepDropsIff(net: Net, step: Step, h: Hop)
    requires NetOk(net) && Still(net, h)
    ensures DroppedBy(net, step, h) == [] <==> HasRoom(net, step, h)
  {
    NotLoopback(net, h);
    EndOfOk(net, h.x, h.i);
    EndOfOk(net, h.y, h.k);
    PortsAt(net, h.x, h.i);
    PortsAt(net, h.y, h.k);
    hide DroppedBySend, Filter, IsHop, NetOk, EndAt;
    var e := EndAt(net, h.y, h.k);
    ReceiveFitsIff(e.inbound.value.messages, e.port.incoming, e.port.incomingCapacity, e.port.inFilter);
    SendDropsIff(EndAt(net, h.x, h.i), net.nodes[h.x].ads);
  }

  ghost predicate AlwaysRoom(net: Net, steps: seq<Step>, h: Hop)
    requires NetOk(net) && IsHop(net, h) && Reached(net, steps).Some?
    decreases |steps|
  {
    steps == []
    || (var before := steps[..|steps| - 1];
        SameHop(net, Reached(net, before).value, h);
        AlwaysRoom(net, before, h) && HasRoom(Reached(net, before).value, LastOf(steps), h))
  }

  /** Over any run a hop drops nothing exactly when, in every step, what passes fits the room it meets. */
  lemma {:induction false} HopDropsNothingIff(net: Net, steps: seq<Step>, h: Hop)
    requires NetOk(net) && Idle(net) && IsHop(net, h) && Reached(net, steps).Some?
    ensures Dropped(net, steps, h) == [] <==> AlwaysRoom(net, steps, h)
    decreases |steps|
  {
    if steps != [] {
      var before := steps[..|steps| - 1];
      HopDropsNothingIff(net, before, h);
      HopKeepsOrder(net, before, h);
      hide HasRoom, DroppedBy, IsHop, Take, Possible, NetOk;
      StepDropsIff(Reached(net, before).value, LastOf(steps), h);
    }
  }
}
