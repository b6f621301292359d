/** From a topology to a network: one router per vertex, two sessions and two channels per edge
    (`NetworkManager::from_topology` in src/modules/network.rs). */
module NetworkManagers {
  import opened Wrappers
  import opened RouterMaskMaps
  import opened Advertisements
  import opened Ribs
  import opened RibUpdates
  import opened Interfaces
  import opened BgpProcesses
  import opened Networks
  import opened Topologies

  /** The configuration of a router's process, and the identifier the process draws for itself. */
  datatype Vertex = Vertex(ip: Printed, ownId: Uuid)

  datatype Edge = Edge(linkBufferSize: nat)

  type NetworkGraph = Graph<Vertex, Edge>

  /** What `from_topology` ends in; the panics are those of a router that exists already and of a
      pair of routers that is one router. */
  datatype Built = Wired(routers: map<Uuid, Node>, channels: seq<Queue>) | RouterNotFound(id: Uuid) | Panicked

  // ---- what the loops build ----

  function NewRouter(id: Uuid, v: Vertex): Node {
    FreshAdmits(v.ownId);
    Node(id, v.ip, RegisterRouter(FRESH, v.ownId), [], NOTHING, NOTHING, [], [])
  }

  const NEW_PORT := Port([], 1000, [], 1000, 1000, 1000, NoFilter, NoFilter)

  /** The two channels of edge `j`: from its first router to its second, and back. */
  function Forth(j: nat): Option<nat> {
    Some(2 * j)
  }

  function Back(j: nat): Option<nat> {
    Some(2 * j + 1)
  }

  /** The session of edge `j` at its first router, and the one at its second. */
  function FirstSession(j: nat): Session {
    Session(NEW_PORT, Back(j), Forth(j))
  }

  function SecondSession(j: nat): Session {
    Session(NEW_PORT, Forth(j), Back(j))
  }

  /** The sessions of a router, in the order of the edges. */
  function SessionsOf(id: Uuid, edges: seq<(Uuid, Uuid, Edge)>): seq<Session> {
    if edges == [] then []
    else
      var j := |edges| - 1;
      SessionsOf(id, edges[..j])
      + (if edges[j].0 == id then [FirstSession(j)] else if edges[j].1 == id then [SecondSession(j)] else [])
  }

  function ChannelsOf(edges: seq<(Uuid, Uuid, Edge)>): seq<Queue> {
    if edges == [] then []
    else
      var j := |edges| - 1;
      ChannelsOf(edges[..j]) + [Queue(edges[j].2.linkBufferSize, []), Queue(edges[j].2.linkBufferSize, [])]
  }

  lemma {:induction false} ChannelsAt(edges: seq<(Uuid, Uuid, Edge)>)
    ensures |ChannelsOf(edges)| == 2 * |edges|
    ensures forall c :: 0 <= c < 2 * |edges| ==> ChannelsOf(edges)[c] == Queue(edges[c / 2].2.linkBufferSize, [])
  {
    if edges != [] {
      ChannelsAt(edges[..|edges| - 1]);
    }
  }

  // ---- which topologies are built ----

  predicate Repeats(vertices: seq<(Uuid, Vertex)>) {
    exists i, j :: 0 <= i < j < |vertices| && vertices[i].0 == vertices[j].0
  }

  predicate Joins(g: NetworkGraph, e: (Uuid, Uuid, Edge)) {
    Contains(g, e.0) && Contains(g, e.1) && e.0 != e.1
  }

  /** The first edge that does not join two different routers. */
  function FirstFault(g: NetworkGraph, edges: seq<(Uuid, Uuid, Edge)>): (k: nat)
    ensures k <= |edges|
    ensures k < |edges| ==> !Joins(g, edges[k])
    ensures forall j :: 0 <= j < k ==> Joins(g, edges[j])
  {
    if edges == [] || !Joins(g, edges[0]) then 0 else 1 + FirstFault(g, edges[1..])
  }

  function Fault(g: NetworkGraph, e: (Uuid, Uuid, Edge)): Built {
    if !Contains(g, e.0) then RouterNotFound(e.0)
    else if !Contains(g, e.1) then RouterNotFound(e.1)
    else Panicked
  }

  /** The router of a vertex, with its sessions on the given edges. */
  function RouterWith(g: NetworkGraph, id: Uuid, edges: seq<(Uuid, Uuid, Edge)>): Node
    requires Contains(g, id)
  {
    NewRouter(id, ValueOf(g, id).value).(sessions := SessionsOf(id, edges))
  }

  /** One router per vertex, each with its sessions on the given edges. */
  ghost predicate Routers(g: NetworkGraph, routers: map<Uuid, Node>, edges: seq<(Uuid, Uuid, Edge)>) {
    && (forall id :: id in routers <==> Contains(g, id))
    && forall id <- routers :: routers[id] == RouterWith(g, id, edges)
  }

  /** The outcome for every topology: a repeated vertex or the first faulty edge decides; without
      either every router has its sessions and the channels are those of the edges. */
  ghost predicate Outcome(g: NetworkGraph, r: Built) {
    var k := FirstFault(g, g.edges);
    if Repeats(g.vertices) then r == Panicked
    else if k < |g.edges| then r == Fault(g, g.edges[k])
    else r.Wired? && r.channels == ChannelsOf(g.edges) && Routers(g, r.routers, g.edges)
  }

  predicate Listed(g: NetworkGraph, id: Uuid) {
    exists k :: 0 <= k < |g.vertices| && g.vertices[k].0 == id
  }

  lemma ListedIsContained(g: NetworkGraph, id: Uuid)
    ensures Listed(g, id) <==> Contains(g, id)
  {
  }

  /** What a topology ends in, from its lists alone: a vertex listed twice panics; otherwise the first
      edge that does not join two different listed vertices decides, by its first end that is not
      listed, or by a panic when its ends are one vertex; without such an edge the network is wired. */
  lemma OutcomeIs(g: NetworkGraph, r: Built) returns (k: nat)
    requires Outcome(g, r)
    ensures (exists i, j :: 0 <= i < j < |g.vertices| && g.vertices[i].0 == g.vertices[j].0) ==> r == Panicked
    ensures (forall i, j :: 0 <= i < j < |g.vertices| ==> g.vertices[i].0 != g.vertices[j].0) ==>
              && k <= |g.edges|
              && (forall j :: 0 <= j < k ==>
                    Listed(g, g.edges[j].0) && Listed(g, g.edges[j].1) && g.edges[j].0 != g.edges[j].1)
              && (k == |g.edges| ==> r.Wired?)
              && (k < |g.edges| && !Listed(g, g.edges[k].0) ==> r == RouterNotFound(g.edges[k].0))
              && (k < |g.edges| && Listed(g, g.edges[k].0) && !Listed(g, g.edges[k].1) ==>
                    r == RouterNotFound(g.edges[k].1))
              && (k < |g.edges| && Listed(g, g.edges[k].0) && Listed(g, g.edges[k].1) ==>
                    r == Panicked && g.edges[k].0 == g.edges[k].1)
  {
    k := FirstFault(g, g.edges);
    hide Contains, Routers;
    forall id ensures Listed(g, id) <==> Contains(g, id) {
      ListedIsContained(g, id);
    }
  }

  lemma FaultIsFirst(g: NetworkGraph, edges: seq<(Uuid, Uuid, Edge)>, k: nat)
    requires k <= |edges| && (k < |edges| ==> !Joins(g, edges[k]))
    requires forall j :: 0 <= j < k ==> Joins(g, edges[j])
    ensures FirstFault(g, edges) == k
  {
  }

  function AddSession(n: Node, s: Session): Node {
    n.(sessions := n.sessions + [s])
  }

  lemma OneMoreEdge(g: NetworkGraph, routers: map<Uuid, Node>, edges: seq<(Uuid, Uuid, Edge)>)
    requires edges != []
    requires var j := |edges| - 1; Routers(g, routers, edges[..j]) && Joins(g, edges[j])
    ensures var j := |edges| - 1;
            var (first, second, edge) := edges[j];
            && first in routers && second in routers
            && Routers(g, routers[first := AddSession(routers[first], FirstSession(j))]
                                 [second := AddSession(routers[second], SecondSession(j))], edges)
  {
    hide Contains, ValueOf, NewRouter;
    var j := |edges| - 1;
    var (first, second, edge) := edges[j];
    assert routers[first] == RouterWith(g, first, edges[..j]);
    assert routers[second] == RouterWith(g, second, edges[..j]);
  }

  /** One router for each of the first `n` vertices, which are all different. */
  ghost predicate Created(g: NetworkGraph, routers: map<Uuid, Node>, n: nat)
    requires n <= |g.vertices|
  {
    && (forall a, b :: 0 <= a < b < n ==> g.vertices[a].0 != g.vertices[b].0)
    && (forall id :: id in routers <==> Position(g.vertices, id) < n)
    && forall id <- routers :: routers[id] == RouterWith(g, id, [])
  }

  lemma NewIsWith(g: NetworkGraph, i: nat)
    requires i < |g.vertices| && Position(g.vertices, g.vertices[i].0) == i
    ensures var (id, v) := g.vertices[i]; Contains(g, id) && RouterWith(g, id, []) == NewRouter(id, v)
  {
  }

  lemma OneMoreRouter(g: NetworkGraph, routers: map<Uuid, Node>, i: nat)
    requires i < |g.vertices| && Created(g, routers, i) && g.vertices[i].0 !in routers
    ensures var (id, v) := g.vertices[i];
            Created(g, routers[id := NewRouter(id, v)], i + 1)
  {
    var (id, v) := g.vertices[i];
    hide Position, NewRouter;
    assert Position(g.vertices, id) >= i;
    PositionIs(g.vertices, id, i);
    NewIsWith(g, i);
    hide RouterWith, Contains, ValueOf;
  }

  /** The loop over the vertices. */
  method CreateRouters(g: NetworkGraph) returns (routers: Option<map<Uuid, Node>>)
    ensures routers.None? <==> Repeats(g.vertices)
    ensures routers.Some? ==> Routers(g, routers.value, [])
  {
    hide NewRouter, RouterWith;
    var created: map<Uuid, Node> := map[];
    for i := 0 to |g.vertices|
      invariant Created(g, created, i)
    {
      var (id, v) := g.vertices[i];
      if id in created {
        assert g.vertices[Position(g.vertices, id)].0 == id;
        return None;
      }
      OneMoreRouter(g, created, i);
      created := created[id := NewRouter(id, v)];
    }
    routers := Some(created);
  }

  method FromTopology(g: NetworkGraph) returns (r: Built)
    ensures Outcome(g, r)
  {
    hide Routers, RouterWith, Contains;
    var created := CreateRouters(g);
    if created.None? {
      return Panicked;
    }
    var routers, channels: seq<Queue> := created.value, [];
    assert g.edges[..0] == [];
    for j := 0 to |g.edges|
      invariant channels == ChannelsOf(g.edges[..j]) && |channels| == 2 * j
      invariant Routers(g, routers, g.edges[..j])
      invariant forall k :: 0 <= k < j ==> Joins(g, g.edges[k])
    {
      var (first, second, edge) := g.edges[j];
      assert g.edges[..j + 1][..j] == g.edges[..j];
      RoutersAre(g, routers, g.edges[..j]);
      var forth, back := Some(|channels|), Some(|channels| + 1);
      channels := channels + [Queue(edge.linkBufferSize, []), Queue(edge.linkBufferSize, [])];
      if first == second || first !in routers || second !in routers {
        FaultIsFirst(g, g.edges, j);
        return if first !in routers then RouterNotFound(first)
               else if second !in routers then RouterNotFound(second) else Panicked;
      }
      OneMoreEdge(g, routers, g.edges[..j + 1]);
      routers := routers[first := AddSession(routers[first], Session(NEW_PORT, back, forth))]
                        [second := AddSession(routers[second], Session(NEW_PORT, forth, back))];
    }
    assert g.edges[..|g.edges|] == g.edges;
    FaultIsFirst(g, g.edges, |g.edges|);
    r := Wired(routers, channels);
  }

  lemma RoutersAre(g: NetworkGraph, routers: map<Uuid, Node>, edges: seq<(Uuid, Uuid, Edge)>)
    requires Routers(g, routers, edges)
    ensures forall id :: id in routers <==> Contains(g, id)
  {
  }
}
