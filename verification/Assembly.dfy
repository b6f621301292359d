/** The objects that `from_topology` (src/modules/network.rs) puts together: their values are the nodes,
    sessions and channels of the wired network. */
module Assemblies {
  import opened Wrappers
  import opened RouterMaskMaps
  import opened Ribs
  import opened Advertisements
  import opened RibUpdates
  import opened Interfaces
  import opened BgpSessions
  import opened BgpProcesses
  import opened Routers
  import opened Networks
  import opened NetworkWork
  import opened Topologies
  import opened NetworkManagers
  import opened Wirings

  // ---- routers ----

  /** In every wired outcome there is one router per vertex: it acts under the identifier of the
      vertex, with the address of the vertex, on an empty table in which only the identifier that its
      process drew is registered, and has nothing to do. */
  lemma RoutersAreTheirVertices(g: NetworkGraph, r: Built, i: nat)
    requires Outcome(g, r) && r.Wired? && i < |g.vertices|
    ensures var (id, v) := g.vertices[i];
            && id in r.routers
            && var n := r.routers[id];
               && n.id == id && n.ip == v.ip
               && n.rib.table == map[] && n.rib.alloc.owners == map[v.ownId := 0] && n.rib.alloc.taken == {0}
               && n.pending == n.updates == Changes([], []) && n.inbox == n.ads == []
               && |n.sessions| == |Incident(id, g.edges)|
  {
    var (id, v) := g.vertices[i];
    DistinctPosition(g.vertices, i);
    NewRouterIs(id, v);
    OneSessionPerEdge(id, g.edges);
    hide NewRouter, SessionsOf, Incident, Position, Repeats;
  }

  lemma NewRouterIs(id: Uuid, v: Vertex)
    ensures var n := NewRouter(id, v);
            && n.id == id && n.ip == v.ip
            && n.rib.table == map[] && n.rib.alloc.owners == map[v.ownId := 0] && n.rib.alloc.taken == {0}
            && n.pending == n.updates == Changes([], []) && n.inbox == n.ads == []
  {
    assert FirstFree({}, 0) == 0;
  }

  lemma DistinctPosition(vertices: seq<(Uuid, Vertex)>, k: nat)
    requires !Repeats(vertices) && k < |vertices|
    ensures Position(vertices, vertices[k].0) == k
  {
    var p := Position(vertices, vertices[k].0);
    assert p < k ==> Repeats(vertices);
  }

  /** And there are no other routers. */
  lemma NoOtherRouters(g: NetworkGraph, r: Built, id: Uuid)
    requires Outcome(g, r) && r.Wired?
    ensures id in r.routers <==> exists v :: (id, v) in g.vertices
  {
    hide RouterWith;
    if exists v :: (id, v) in g.vertices {
      var v :| (id, v) in g.vertices;
      var k :| 0 <= k < |g.vertices| && g.vertices[k] == (id, v);
      DistinctPosition(g.vertices, k);
    }
    if id in r.routers {
      assert g.vertices[Position(g.vertices, id)] in g.vertices;
    }
  }

  /** The body of the loop over the vertices, with `insert_router`: the process of the new router, as
      a value, is the one of the wired network's node before it has sessions. */
  method NewRouterFor(id: Uuid, v: Vertex) returns (router: Router)
    ensures fresh(router) && fresh(Objects(router.bgpProcesses)) && router.Valid() && router.id == id
    ensures |router.bgpProcesses| == 1
    ensures router.bgpProcesses[0].View() == ProcessFrom(NewRouter(id, v), [])
  {
    hide BgpProcess.View, BgpProcess.Valid, BgpProcess.Repr, BgpProcess.Inner;
    TwoIdsFit(v.ownId, id);
    var process := new BgpProcess(v.ip, v.ownId);
    Owns(process);
    router := new Router(id);
    assert router.Apart(process);
    router.AddBgpProcess(process);
    OnlyProcess(process);
    Owns(process);
    router.bgpProcesses[0].SetRouterId(id);
    OnlyProcess(process);
  }

  lemma OnlyProcess(p: BgpProcess)
    ensures Unrelated([p]) <==> p.Valid()
    ensures Objects([p]) == p.Repr()
  {
    hide BgpProcess.Valid, BgpProcess.Repr, BgpProcess.Outer, BgpProcess.Inner;
    assert [p][1..] == [];
  }

  // ---- sessions ----

  /** The value of a new session on a link with this room, seen from either side. */
  function NewEnd(room: nat): End {
    End(NEW_PORT, Some(Queue(room, [])), Some(Queue(room, [])), false)
  }

  /** Two interfaces on two channels: what one sends the other receives. */
  method NewInterfacePair(linkBufferSize: nat) returns (interface1: Interface, interface2: Interface)
    ensures fresh(interface1.Repr()) && fresh(interface2.Repr()) && interface1 != interface2
    ensures interface1.outChannel == interface2.inChannel != null
    ensures interface2.outChannel == interface1.inChannel != null
    ensures interface1.outChannel != interface2.outChannel
    ensures interface1.Valid() && interface2.Valid()
    ensures interface1.View() == interface2.View() == NewEnd(linkBufferSize)
  {
    interface1 := new Interface();
    interface2 := new Interface();
    var channel1 := new Channel(linkBufferSize);
    var channel2 := new Channel(linkBufferSize);
    interface1.SetOutChannel(channel1);
    interface2.SetInChannel(channel1);
    interface2.SetOutChannel(channel2);
    interface1.SetInChannel(channel2);
    assert interface1.Repr() == {interface1, channel2, channel1};
    assert interface2.Repr() == {interface2, channel1, channel2};
  }

  /** The two sessions of an edge. */
  method NewSessionPair(linkBufferSize: nat) returns (session1: BgpSession, session2: BgpSession)
    ensures fresh(session1.Repr()) && fresh(session2.Repr()) && session1 != session2
    ensures session1.Valid() && session2.Valid()
    ensures session1.View() == session2.View() == Some(NewEnd(linkBufferSize))
    ensures session1.interface != null && session2.interface != null
    ensures session1.interface.outChannel == session2.interface.inChannel != null
    ensures session2.interface.outChannel == session1.interface.inChannel != null
  {
    var interface1, interface2 := NewInterfacePair(linkBufferSize);
    session1 := new BgpSession();
    session1.SetInterface(interface1);
    session2 := new BgpSession();
    session2.SetInterface(interface2);
  }

  /** They are, as values, the sessions of the edge in the wired network. */
  lemma SessionsAreNewPairs(g: NetworkGraph, r: Built, i: nat, k: nat)
    requires Proper(g) && LoopFree(g) && Outcome(g, r) && i < |NetOf(g, r).nodes|
    requires k < |NetOf(g, r).nodes[i].sessions|
    ensures i < |g.vertices|
    ensures var net, at := NetOf(g, r), Incident(g.vertices[i].0, g.edges);
            && k < |at| && at[k] < |g.edges| && NetOk(net)
            && EndAt(net, i, k) == NewEnd(g.edges[at[k]].2.linkBufferSize)
  {
    hide Outcome, NetOf, SessionsOf, Incident, Proper, LoopFree, ChannelsOf, NetOk;
    NodesAre(g, r);
    NodeOf(g, r, i);
    ChannelsAt(g.edges);
    WiredNetworkIsReady(g, r);
    OneSessionPerEdge(g.vertices[i].0, g.edges);
  }
}
