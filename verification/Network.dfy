/** A network of routers as a step system (src/modules/router.rs, src/components/bgp/bgp_process.rs,
    src/modules/network.rs). A step is one stage of one router on one session, so a run is any
    interleaving of the routers' work, with advertisements injected from outside in between. */
module Networks {
  import opened Wrappers
  import opened RouterMaskMaps
  import opened IpNetworks
  import opened Ribs
  import opened RibRuns
  import opened Advertisements
  import opened RibUpdates
  import opened Interfaces
  import opened BgpProcesses

  /** A session names the channels it is attached to. */
  datatype Session = Session(port: Port, inChannel: Option<nat>, outChannel: Option<nat>)

  /** A router with its one process and its own table; `inbox` holds what a receive stage under
      way has collected. */
  datatype Node = Node(
    id: Uuid, ip: Printed, rib: Rib, inbox: seq<Advertisement>, pending: Changes, updates: Changes,
    ads: seq<Advertisement>, sessions: seq<Session>)

  datatype Net = Net(nodes: seq<Node>, channels: seq<Queue>)

  datatype Step =
    | ReceiveFrom(node: nat, session: nat)
    | Update(node: nat)
    | Collect(node: nat)
    | Generate(node: nat)
    | SendTo(node: nat, session: nat)
    | Finish(node: nat)
    | InjectAtNode(node: nat, ad: Advertisement)
    | InjectInChannel(channel: nat, ad: Advertisement)

  // ---- well-formed networks ----

  ghost predicate Attached(net: Net, s: Session) {
    && (s.inChannel.Some? ==> s.inChannel.value < |net.channels|)
    && (s.outChannel.Some? ==> s.outChannel.value < |net.channels|)
    && |s.port.incoming| <= s.port.incomingCapacity
    && |s.port.outgoing| <= s.port.outgoingCapacity
  }

  ghost predicate NodeOk(net: Net, n: Node) {
    && CanAcquire(n.rib.alloc, n.id)
    && forall i :: 0 <= i < |n.sessions| ==> Attached(net, n.sessions[i])
  }

  ghost predicate NetOk(net: Net) {
    && (forall r :: 0 <= r < |net.nodes| ==> NodeOk(net, net.nodes[r]))
    && forall c :: 0 <= c < |net.channels| ==> |net.channels[c].messages| <= net.channels[c].bound
  }

  function ChannelAt(net: Net, c: Option<nat>): Option<Queue>
    requires c.Some? ==> c.value < |net.channels|
  {
    if c.Some? then Some(net.channels[c.value]) else None
  }

  function EndOf(net: Net, s: Session): End
    requires s.inChannel.Some? ==> s.inChannel.value < |net.channels|
    requires s.outChannel.Some? ==> s.outChannel.value < |net.channels|
  {
    End(s.port, ChannelAt(net, s.inChannel), ChannelAt(net, s.outChannel),
        s.inChannel.Some? && s.inChannel == s.outChannel)
  }

  lemma EndOfOk(net: Net, r: nat, i: nat)
    requires NetOk(net) && r < |net.nodes| && i < |net.nodes[r].sessions|
    ensures Attached(net, net.nodes[r].sessions[i]) && EndOk(EndOf(net, net.nodes[r].sessions[i]))
  {
    assert NodeOk(net, net.nodes[r]);
  }

  // ---- steps ----

  function SetChannel(channels: seq<Queue>, c: Option<nat>, q: Option<Queue>): seq<Queue> {
    if c.Some? && c.value < |channels| && q.Some? then channels[c.value := q.value] else channels
  }

  /** The session's end, written back. */
  function Detach(net: Net, r: nat, i: nat, e: End): Net
    requires r < |net.nodes| && i < |net.nodes[r].sessions|
  {
    var n := net.nodes[r];
    var s := n.sessions[i];
    Net(net.nodes[r := n.(sessions := n.sessions[i := s.(port := e.port)])],
        SetChannel(SetChannel(net.channels, s.inChannel, e.inbound), s.outChannel, e.outbound))
  }

  function WithNode(net: Net, r: nat, n: Node): Net
    requires r < |net.nodes|
  {
    net.(nodes := net.nodes[r := n])
  }

  predicate Possible(net: Net, step: Step) {
    match step
    case ReceiveFrom(r, i) => r < |net.nodes| && i < |net.nodes[r].sessions|
    case SendTo(r, i) => r < |net.nodes| && i < |net.nodes[r].sessions|
    case InjectInChannel(c, _) => c < |net.channels| && |net.channels[c].messages| < net.channels[c].bound
    case _ => step.node < |net.nodes|
  }

  function Updated(n: Node): Node
    requires CanAcquire(n.rib.alloc, n.id)
  {
    var ops := OpsOfAll(n.inbox, n.id);
    UpdateFinishes(n.rib, n.inbox, n.id);
    n.(rib := Play(n.rib, ops), pending := Join(n.pending, Reports(n.rib, ops)), inbox := [])
  }

  /** What the router has to announce and to withdraw, as an advertisement. */
  function OwnAd(n: Node): Advertisement {
    Generated(n.ip, n.updates.announced, n.updates.withdrawn)
  }

  /** The steps that concern one router alone. */
  function Worked(n: Node, step: Step): Node
    requires CanAcquire(n.rib.alloc, n.id)
  {
    match step
    case Update(_) => Updated(n)
    case Collect(_) => n.(updates := n.pending, pending := NOTHING)
    case Generate(_) => n.(ads := n.ads + [OwnAd(n)])
    case Finish(_) => n.(ads := [])
    case InjectAtNode(_, ad) => n.(ads := n.ads + [ad])
    case _ => n
  }

  ghost function Take(net: Net, step: Step): Net
    requires NetOk(net) && Possible(net, step)
  {
    match step
    case ReceiveFrom(r, i) =>
      EndOfOk(net, r, i);
      var e := EndOf(net, net.nodes[r].sessions[i]);
      var after := Detach(net, r, i, AfterReceive(e));
      WithNode(after, r, after.nodes[r].(inbox := net.nodes[r].inbox + Arriving(e)))
    case SendTo(r, i) =>
      EndOfOk(net, r, i);
      Detach(net, r, i, AfterSend(EndOf(net, net.nodes[r].sessions[i]), net.nodes[r].ads))
    case InjectInChannel(c, ad) =>
      var q := net.channels[c];
      net.(channels := net.channels[c := q.(messages := q.messages + [ad])])
    case _ =>
      assert NodeOk(net, net.nodes[step.node]);
      WithNode(net, step.node, Worked(net.nodes[step.node], step))
  }

  /** The channels the sessions are attached to never change. */
  function Wiring(n: Node): seq<(Option<nat>, Option<nat>)> {
    seq(|n.sessions|, i requires 0 <= i < |n.sessions| => (n.sessions[i].inChannel, n.sessions[i].outChannel))
  }

  ghost predicate SameWiring(a: Net, b: Net) {
    && |a.nodes| == |b.nodes| && |a.channels| == |b.channels|
    && forall r :: 0 <= r < |a.nodes| ==> Wiring(a.nodes[r]) == Wiring(b.nodes[r])
  }

  lemma DetachOk(net: Net, r: nat, i: nat, e: End)
    requires NetOk(net) && r < |net.nodes| && i < |net.nodes[r].sessions| && EndOk(e)
    requires var s := net.nodes[r].sessions[i];
             && (s.inChannel.Some? ==>
                   e.inbound.Some? && e.inbound.value.bound == net.channels[s.inChannel.value].bound)
             && (s.outChannel.Some? ==>
                   e.outbound.Some? && e.outbound.value.bound == net.channels[s.outChannel.value].bound)
    ensures NetOk(Detach(net, r, i, e)) && SameWiring(net, Detach(net, r, i, e))
  {
    var after := Detach(net, r, i, e);
    forall k | 0 <= k < |after.nodes|
      ensures NodeOk(after, after.nodes[k]) && Wiring(after.nodes[k]) == Wiring(net.nodes[k])
    {
      assert NodeOk(net, net.nodes[k]);
    }
  }

  lemma WithNodeOk(net: Net, r: nat, n: Node)
    requires NetOk(net) && r < |net.nodes|
    requires n.sessions == net.nodes[r].sessions && CanAcquire(n.rib.alloc, n.id)
    ensures NetOk(WithNode(net, r, n)) && SameWiring(net, WithNode(net, r, n))
  {
    var after := WithNode(net, r, n);
    assert NodeOk(net, net.nodes[r]);
    forall k | 0 <= k < |after.nodes|
      ensures NodeOk(after, after.nodes[k]) && Wiring(after.nodes[k]) == Wiring(net.nodes[k])
    {
      assert NodeOk(net, net.nodes[k]);
    }
  }

  /** Every step keeps the buffers and channels within their bounds and the wiring as it is. */
  lemma TakeOk(net: Net, step: Step)
    requires NetOk(net) && Possible(net, step)
    ensures NetOk(Take(net, step)) && SameWiring(net, Take(net, step))
  {
    hide CanAcquire, Play, Reports, OpsOfAll, Generated;
    match step {
      case ReceiveFrom(r, i) =>
        EndOfOk(net, r, i);
        var e := EndOf(net, net.nodes[r].sessions[i]);
        PullKeepsBounds(e);
        DetachOk(net, r, i, AfterReceive(e));
        var after := Detach(net, r, i, AfterReceive(e));
        assert NodeOk(after, after.nodes[r]);
        WithNodeOk(after, r, after.nodes[r].(inbox := net.nodes[r].inbox + Arriving(e)));
      case SendTo(r, i) =>
        EndOfOk(net, r, i);
        var e := EndOf(net, net.nodes[r].sessions[i]);
        SendKeepsBounds(e, net.nodes[r].ads);
        DetachOk(net, r, i, AfterSend(e, net.nodes[r].ads));
      case InjectInChannel(c, ad) =>
        forall k | 0 <= k < |net.nodes|
          ensures NodeOk(Take(net, step), Take(net, step).nodes[k])
        {
          assert NodeOk(net, net.nodes[k]);
        }
      case _ =>
        var r := step.node;
        assert NodeOk(net, net.nodes[r]);
        UpdateFinishes(net.nodes[r].rib, net.nodes[r].inbox, net.nodes[r].id);
        WithNodeOk(net, r, Take(net, step).nodes[r]);
    }
  }

  lemma SameWiringTrans(a: Net, b: Net, c: Net)
    requires SameWiring(a, b) && SameWiring(b, c)
    ensures SameWiring(a, c)
  {
  }

  /** The network after a run; `None` when a step of it is not enabled. */
  ghost function Reached(net: Net, steps: seq<Step>): (result: Option<Net>)
    requires NetOk(net)
    ensures result.Some? ==> NetOk(result.value) && SameWiring(net, result.value)
    decreases |steps|
  {
    if steps == [] then Some(net)
    else
      var last := |steps| - 1;
      match Reached(net, steps[..last])
      case None => None
      case Some(before) =>
        if Possible(before, steps[last]) then
          TakeOk(before, steps[last]);
          SameWiringTrans(net, before, Take(before, steps[last]));
          Some(Take(before, steps[last]))
        else None
  }

  /** Nothing stored, buffered, reported or under way. */
  ghost predicate Idle(net: Net) {
    && (forall r :: 0 <= r < |net.nodes| ==> NodeIdle(net.nodes[r]))
    && forall c :: 0 <= c < |net.channels| ==> net.channels[c].messages == []
  }

  ghost predicate NodeIdle(n: Node) {
    && n.rib.table == map[] && n.inbox == [] && n.ads == [] && n.pending == NOTHING && n.updates == NOTHING
    && forall i :: 0 <= i < |n.sessions| ==> n.sessions[i].port.incoming == n.sessions[i].port.outgoing == []
  }
}
