/** What `from_topology` (src/modules/network.rs) wires, for every topology built by the add
    operations of src/utils/topology.rs. */
module Wirings {
  import opened Wrappers
  import opened RouterMaskMaps
  import opened IpNetworks
  import opened Advertisements
  import opened BgpProcesses
  import opened Networks
  import opened NetworkWork
  import opened Provenance
  import opened Topologies
  import opened NetworkManagers
  import opened RibCounts

  ghost predicate LoopFree(g: NetworkGraph) {
    forall k :: 0 <= k < |g.edges| ==> g.edges[k].0 != g.edges[k].1
  }

  /** A topology made by the add operations is wired exactly when it has no self-loop; a router is
      never missing, and the only way to fail is the panic on a self-loop. */
  lemma WiredIffLoopFree(adds: seq<Add<Vertex, Edge>>, default: Vertex, r: Built)
    requires Outcome(Build(adds, default), r)
    ensures r.Wired? <==> LoopFree(Build(adds, default))
    ensures !r.Wired? ==> r == Panicked
  {
    var g := Build(adds, default);
    BuiltIsProper(adds, default);
    var k := FirstFault(g, g.edges);
    if k < |g.edges| {
      assert Contains(g, g.edges[k].0) && Contains(g, g.edges[k].1);
    } else {
      forall j | 0 <= j < |g.edges| ensures g.edges[j].0 != g.edges[j].1 {
        assert Joins(g, g.edges[j]);
      }
    }
  }

  // ---- sessions and edge ends ----

  predicate Touches(e: (Uuid, Uuid, Edge), id: Uuid) {
    e.0 == id || e.1 == id
  }

  /** The edges at a router, by index. */
  function Incident(id: Uuid, edges: seq<(Uuid, Uuid, Edge)>): seq<nat> {
    if edges == [] then []
    else
      var j := |edges| - 1;
      Incident(id, edges[..j]) + if Touches(edges[j], id) then [j] else []
  }

  function SessionAt(id: Uuid, edges: seq<(Uuid, Uuid, Edge)>, j: nat): Session
    requires j < |edges|
  {
    if edges[j].0 == id then FirstSession(j) else SecondSession(j)
  }

  lemma {:induction false} IncidentIs(id: Uuid, edges: seq<(Uuid, Uuid, Edge)>)
    ensures forall i :: 0 <= i < |Incident(id, edges)| ==>
              Incident(id, edges)[i] < |edges| && Touches(edges[Incident(id, edges)[i]], id)
    ensures forall j :: 0 <= j < |edges| && Touches(edges[j], id) ==> j in Incident(id, edges)
  {
    hide Touches;
    if edges != [] {
      var n := |edges| - 1;
      IncidentIs(id, edges[..n]);
      forall j | 0 <= j < |edges| && Touches(edges[j], id) ensures j in Incident(id, edges) {
        if j < n {
          assert edges[..n][j] == edges[j];
        }
      }
    }
  }

  lemma {:induction false} IncidentIncreases(id: Uuid, edges: seq<(Uuid, Uuid, Edge)>)
    ensures forall i, k :: 0 <= i < k < |Incident(id, edges)| ==> Incident(id, edges)[i] < Incident(id, edges)[k]
  {
    hide Touches;
    if edges != [] {
      IncidentIncreases(id, edges[..|edges| - 1]);
      IncidentIs(id, edges[..|edges| - 1]);
    }
  }

  lemma {:induction false} SessionsAreIncident(id: Uuid, edges: seq<(Uuid, Uuid, Edge)>)
    ensures |SessionsOf(id, edges)| == |Incident(id, edges)|
    ensures forall i :: 0 <= i < |Incident(id, edges)| ==>
              && Incident(id, edges)[i] < |edges|
              && SessionsOf(id, edges)[i] == SessionAt(id, edges, Incident(id, edges)[i])
  {
    if edges != [] {
      var n := |edges| - 1;
      SessionsAreIncident(id, edges[..n]);
      IncidentIs(id, edges[..n]);
      forall i | 0 <= i < |Incident(id, edges)|
        ensures Incident(id, edges)[i] < |edges|
        ensures SessionsOf(id, edges)[i] == SessionAt(id, edges, Incident(id, edges)[i])
      {
        if i < |Incident(id, edges[..n])| {
          var j := Incident(id, edges[..n])[i];
          assert SessionsOf(id, edges)[i] == SessionsOf(id, edges[..n])[i] == SessionAt(id, edges[..n], j);
          assert edges[..n][j] == edges[j];
        }
      }
    }
  }

  /** A router has one session per edge at it, in the order of the edges. */
  lemma OneSessionPerEdge(id: Uuid, edges: seq<(Uuid, Uuid, Edge)>)
    ensures var at := Incident(id, edges);
            && |SessionsOf(id, edges)| == |at|
            && (forall i, k :: 0 <= i < k < |at| ==> at[i] < at[k])
            && (forall j: nat :: j in at <==> j < |edges| && Touches(edges[j], id))
            && (forall i :: 0 <= i < |at| ==> at[i] < |edges|)
            && (forall i :: 0 <= i < |at| ==> SessionsOf(id, edges)[i] == SessionAt(id, edges, at[i]))
  {
    hide Touches, SessionAt;
    IncidentIs(id, edges);
    IncidentIncreases(id, edges);
    SessionsAreIncident(id, edges);
  }

  ghost function Degree(edges: seq<(Uuid, Uuid, Edge)>): Uuid -> nat {
    id => |SessionsOf(id, edges)|
  }

  ghost function IsEnd(e: (Uuid, Uuid, Edge)): Uuid -> nat {
    id => if Touches(e, id) then 1 else 0
  }

  lemma TwoEnds(ids: set<Uuid>, e: (Uuid, Uuid, Edge))
    requires e.0 in ids && e.1 in ids && e.0 != e.1
    ensures SumOver(ids, IsEnd(e)) == 2
  {
    SumRemove(ids, IsEnd(e), e.0);
    SumRemove(ids - {e.0}, IsEnd(e), e.1);
    SumZero(ids - {e.0} - {e.1}, IsEnd(e));
  }

  /** The sessions of all routers are twice as many as the edges. */
  lemma {:induction false} SessionsAreTwiceTheEdges(ids: set<Uuid>, edges: seq<(Uuid, Uuid, Edge)>)
    requires forall k :: 0 <= k < |edges| ==> edges[k].0 in ids && edges[k].1 in ids && edges[k].0 != edges[k].1
    ensures SumOver(ids, Degree(edges)) == 2 * |edges|
  {
    if edges == [] {
      SumZero(ids, Degree(edges));
    } else {
      var j := |edges| - 1;
      SessionsAreTwiceTheEdges(ids, edges[..j]);
      TwoEnds(ids, edges[j]);
      SumAdd(ids, Degree(edges[..j]), IsEnd(edges[j]), Degree(edges));
    }
  }

  // ---- channels and opposite sessions ----

  /** Where the session of edge `j` is at a router. */
  lemma SessionPlace(id: Uuid, edges: seq<(Uuid, Uuid, Edge)>, j: nat) returns (k: nat)
    requires j < |edges| && Touches(edges[j], id)
    ensures k < |SessionsOf(id, edges)| && SessionsOf(id, edges)[k] == SessionAt(id, edges, j)
  {
    OneSessionPerEdge(id, edges);
    k :| 0 <= k < |Incident(id, edges)| && Incident(id, edges)[k] == j;
  }

  /** Two sessions of routers that use a common channel belong to the same edge; at one router
      they are the same session. */
  lemma SharedChannel(edges: seq<(Uuid, Uuid, Edge)>, a: Uuid, i: nat, b: Uuid, k: nat)
    requires i < |SessionsOf(a, edges)| && k < |SessionsOf(b, edges)|
    requires var s, t := SessionsOf(a, edges)[i], SessionsOf(b, edges)[k];
             s.inChannel == t.inChannel || s.outChannel == t.outChannel
             || s.outChannel == t.inChannel || s.inChannel == t.outChannel
    ensures i < |Incident(a, edges)| && k < |Incident(b, edges)|
    ensures Incident(a, edges)[i] == Incident(b, edges)[k]
    ensures a == b ==> i == k
  {
    OneSessionPerEdge(a, edges);
    OneSessionPerEdge(b, edges);
    var x, y := Incident(a, edges)[i], Incident(b, edges)[k];
    assert SessionsOf(a, edges)[i] == SessionAt(a, edges, x) && SessionsOf(b, edges)[k] == SessionAt(b, edges, y);
    assert x == y;
  }

  /** Each session sends where exactly one session of all routers receives: the session of the
      same edge at the other router, which in turn sends where this one receives. */
  lemma OppositeSession(edges: seq<(Uuid, Uuid, Edge)>, a: Uuid, i: nat) returns (b: Uuid, k: nat)
    requires i < |SessionsOf(a, edges)| && forall j :: 0 <= j < |edges| ==> edges[j].0 != edges[j].1
    ensures b != a && k < |SessionsOf(b, edges)|
    ensures exists j :: 0 <= j < |edges| && {edges[j].0, edges[j].1} == {a, b}
    ensures SessionsOf(b, edges)[k].inChannel == SessionsOf(a, edges)[i].outChannel
    ensures SessionsOf(b, edges)[k].outChannel == SessionsOf(a, edges)[i].inChannel
    ensures forall c, m :: 0 <= m < |SessionsOf(c, edges)| ==>
              SessionsOf(c, edges)[m].inChannel == SessionsOf(a, edges)[i].outChannel ==> c == b && m == k
  {
    OneSessionPerEdge(a, edges);
    var j := Incident(a, edges)[i];
    b := if edges[j].0 == a then edges[j].1 else edges[j].0;
    k := SessionPlace(b, edges, j);
    assert {edges[j].0, edges[j].1} == {a, b};
    forall c, m | 0 <= m < |SessionsOf(c, edges)|
                  && SessionsOf(c, edges)[m].inChannel == SessionsOf(a, edges)[i].outChannel
      ensures c == b && m == k
    {
      OneSessionPerEdge(c, edges);
      SharedChannel(edges, a, i, c, m);
      SharedChannel(edges, b, k, c, m);
    }
  }

  // ---- the wired network is ready to run ----

  ghost function NetOf(g: NetworkGraph, r: Built): Net
    requires Proper(g) && LoopFree(g) && Outcome(g, r)
  {
    NothingFaulty(g, r);
    Net(seq(|g.vertices|, i requires 0 <= i < |g.vertices| => r.routers[g.vertices[i].0]), r.channels)
  }

  lemma NothingFaulty(g: NetworkGraph, r: Built)
    requires Proper(g) && LoopFree(g) && Outcome(g, r)
    ensures r.Wired? && r.channels == ChannelsOf(g.edges) && Routers(g, r.routers, g.edges)
    ensures forall i :: 0 <= i < |g.vertices| ==> g.vertices[i].0 in r.routers
  {
    var k := FirstFault(g, g.edges);
    assert k < |g.edges| ==> Joins(g, g.edges[k]);
  }

  lemma NodesAre(g: NetworkGraph, r: Built)
    requires Proper(g) && LoopFree(g) && Outcome(g, r)
    ensures |NetOf(g, r).nodes| == |g.vertices| && NetOf(g, r).channels == ChannelsOf(g.edges)
  {
    NothingFaulty(g, r);
  }

  lemma NodeOf(g: NetworkGraph, r: Built, i: nat)
    requires Proper(g) && LoopFree(g) && Outcome(g, r) && i < |g.vertices|
    ensures var id := g.vertices[i].0; Contains(g, id) && NetOf(g, r).nodes[i] == RouterWith(g, id, g.edges)
    ensures NetOf(g, r).channels == ChannelsOf(g.edges)
  {
    NothingFaulty(g, r);
  }

  /** A wired network starts idle, within its bounds and with every channel used by one router at
      each end, so that every theorem about runs of the step system applies to it. */
  lemma WiredNetworkIsReady(g: NetworkGraph, r: Built)
    requires Proper(g) && LoopFree(g) && Outcome(g, r)
    ensures var net := NetOf(g, r);
            NetOk(net) && Idle(net) && forall i :: 0 <= i < |net.nodes| ==> Ready(net, i, |net.nodes[i].sessions|)
  {
    hide Outcome, Proper, LoopFree, NodeOk, NodeIdle, OwnChannels, ChannelsOf;
    var net := NetOf(g, r);
    NothingFaulty(g, r);
    ChannelsAt(g.edges);
    forall i | 0 <= i < |net.nodes|
      ensures NodeOk(net, net.nodes[i]) && NodeIdle(net.nodes[i]) && OwnChannels(net.nodes[i])
    {
      NodeReady(g, r, i);
    }
  }

  lemma NodeReady(g: NetworkGraph, r: Built, i: nat)
    requires Proper(g) && LoopFree(g) && Outcome(g, r) && i < |g.vertices|
    ensures var net := NetOf(g, r);
            NodeOk(net, net.nodes[i]) && NodeIdle(net.nodes[i]) && OwnChannels(net.nodes[i])
  {
    var id, net := g.vertices[i].0, NetOf(g, r);
    NodeOf(g, r, i);
    ChannelsAt(g.edges);
    hide Outcome, NetOf, ChannelsOf, SessionsOf, Proper, LoopFree;
    RouterReady(net, g, id);
  }

  lemma RouterReady(net: Net, g: NetworkGraph, id: Uuid)
    requires Contains(g, id) && |net.channels| == 2 * |g.edges|
    ensures var n := RouterWith(g, id, g.edges); NodeOk(net, n) && NodeIdle(n) && OwnChannels(n)
  {
    NewIsIdle(id, ValueOf(g, id).value);
    SessionsAttached(id, g.edges);
    hide NewRouter, SessionsOf, ValueOf;
  }

  lemma NewIsIdle(id: Uuid, v: Vertex)
    ensures var n := NewRouter(id, v); NodeIdle(n) && n.sessions == [] && CanAcquire(n.rib.alloc, n.id)
  {
    FreshAdmits(v.ownId);
    TwoIdsFit(v.ownId, id);
  }

  /** The position of the identifier a process draws for itself leaves room for the router's. */
  lemma TwoIdsFit(ownId: Uuid, id: Uuid)
    ensures CanAcquire(EMPTY, ownId) && CanAcquire(Acquire(EMPTY, ownId), id)
  {
    assert FirstFree({}, 0) == 0;
    assert FirstFree({0}, 1) == 1;
  }

  lemma SessionsAttached(id: Uuid, edges: seq<(Uuid, Uuid, Edge)>)
    ensures forall k :: 0 <= k < |SessionsOf(id, edges)| ==>
              var s := SessionsOf(id, edges)[k];
              && s.port == NEW_PORT && s.inChannel.Some? && s.outChannel.Some?
              && s.inChannel.value < 2 * |edges| && s.outChannel.value < 2 * |edges|
    ensures forall a, b :: 0 <= a < |SessionsOf(id, edges)| && 0 <= b < |SessionsOf(id, edges)| && a != b ==>
              Disjoint(SessionsOf(id, edges)[a], SessionsOf(id, edges)[b])
  {
    OneSessionPerEdge(id, edges);
    forall k | 0 <= k < |SessionsOf(id, edges)|
      ensures SessionsOf(id, edges)[k] == SessionAt(id, edges, Incident(id, edges)[k])
    {
    }
    forall a, b | 0 <= a < |SessionsOf(id, edges)| && 0 <= b < |SessionsOf(id, edges)| && a != b
      ensures Disjoint(SessionsOf(id, edges)[a], SessionsOf(id, edges)[b])
    {
      if !Disjoint(SessionsOf(id, edges)[a], SessionsOf(id, edges)[b]) {
        SharedChannel(edges, id, a, id, b);
      }
    }
  }

  // ---- hops are edges ----

  /** Two routers that are two links apart are joined by an edge of the topology. */
  lemma HopsAreEdges(g: NetworkGraph, r: Built, x: nat, c: nat, y: nat)
    requires Proper(g) && LoopFree(g) && Outcome(g, r)
    requires HasLink(NetOf(g, r), AtNode(x), InChannel(c)) && HasLink(NetOf(g, r), InChannel(c), AtNode(y))
    ensures x < |g.vertices| && y < |g.vertices|
    ensures exists j :: 0 <= j < |g.edges| && {g.edges[j].0, g.edges[j].1} == {g.vertices[x].0, g.vertices[y].0}
  {
    hide Outcome, Proper, NewRouter, SessionsOf, ChannelsOf;
    var net := NetOf(g, r);
    NodeOf(g, r, x);
    NodeOf(g, r, y);
    hide NetOf;
    var a, b := g.vertices[x].0, g.vertices[y].0;
    var i :| 0 <= i < |Wiring(net.nodes[x])| && Wiring(net.nodes[x])[i].1 == Some(c);
    var k :| 0 <= k < |Wiring(net.nodes[y])| && Wiring(net.nodes[y])[k].0 == Some(c);
    var b', k' := OppositeSession(g.edges, a, i);
    assert SessionsOf(b, g.edges)[k].inChannel == SessionsOf(a, g.edges)[i].outChannel;
  }

  /** A path of the topology, as indices of its vertices. */
  ghost predicate IsPath(g: NetworkGraph, path: seq<nat>) {
    && path != [] && (forall i :: 0 <= i < |path| ==> path[i] < |g.vertices|)
    && forall i :: 0 < i < |path| ==> Neighbours(g, path[i - 1], path[i])
  }

  ghost predicate Neighbours(g: NetworkGraph, x: nat, y: nat) {
    && x < |g.vertices| && y < |g.vertices|
    && exists j :: 0 <= j < |g.edges| && {g.edges[j].0, g.edges[j].1} == {g.vertices[x].0, g.vertices[y].0}
  }

  /** The place is the router, or a channel it receives from. */
  ghost predicate Enters(net: Net, at: Place, x: nat) {
    at == AtNode(x) || (at.InChannel? && HasLink(net, at, AtNode(x)))
  }

  /** A walk along links to a router is a path of the topology to it. */
  lemma {:induction false} WalkIsPath(g: NetworkGraph, r: Built, walk: seq<Place>, y: nat) returns (path: seq<nat>)
    requires Proper(g) && LoopFree(g) && Outcome(g, r) && y < |g.vertices|
    requires IsWalk(NetOf(g, r), walk) && walk[|walk| - 1] == AtNode(y)
    ensures IsPath(g, path) && path[|path| - 1] == y && Enters(NetOf(g, r), walk[0], path[0])
    decreases |walk|
  {
    hide Proper, LoopFree, Outcome, NetOf;
    var net := NetOf(g, r);
    if |walk| == 1 {
      path := [y];
    } else {
      assert HasLink(net, walk[0], walk[1]);
      assert IsWalk(net, walk[1..]) by {
        forall i | 0 < i < |walk[1..]| ensures HasLink(net, walk[1..][i - 1], walk[1..][i]) {
          assert HasLink(net, walk[i], walk[i + 1]);
        }
      }
      path := WalkIsPath(g, r, walk[1..], y);
      if walk[0].AtNode? {
        HopsAreEdges(g, r, walk[0].node, walk[1].channel, path[0]);
        assert Neighbours(g, walk[0].node, path[0]);
        path := [walk[0].node] + path;
      }
    }
  }

  /** Provenance in a topology: in the network wired from any topology without self-loops, over
      any run, a pair of prefix and next hop at a router was named by an advertisement injected at
      a router, or in a channel to a router, from which a path of the topology leads there. */
  lemma {:induction false} PairsFollowPaths(g: NetworkGraph, r: Built, steps: seq<Step>, y: nat,
                                            prefix: IpNetwork, nextHop: string)
    requires Proper(g) && LoopFree(g) && Outcome(g, r) && y < |g.vertices|
    requires (WiredNetworkIsReady(g, r);
              && Reached(NetOf(g, r), steps).Some?
              && Carries(Reached(NetOf(g, r), steps).value, AtNode(y), prefix, nextHop))
    ensures exists k, source, path: seq<nat> ::
              && 0 <= k < |steps| && Injects(steps[k], source) && Names(steps[k].ad, prefix, nextHop)
              && IsPath(g, path) && path[|path| - 1] == y && Enters(NetOf(g, r), source, path[0])
  {
    hide LoopFree, Outcome, Proper, NetOf, Carries;
    WiredNetworkIsReady(g, r);
    var k, walk := PairsTravel(NetOf(g, r), steps, AtNode(y), prefix, nextHop);
    IdleCarriesNothing(NetOf(g, r), walk[0], prefix, nextHop);
    var path := WalkIsPath(g, r, walk, y);
  }
}
