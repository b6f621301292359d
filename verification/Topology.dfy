/** The builder of network topologies (src/utils/topology.rs). */
module Topologies {
  import opened Wrappers
  import opened RouterMaskMaps

  /** Vertices and edges, in the order in which they were first added. */
  datatype Graph<V, E> = Graph(vertices: seq<(Uuid, V)>, edges: seq<(Uuid, Uuid, E)>)

  /** The index of the first entry for the vertex; the length when there is none. */
  function Position<V>(vertices: seq<(Uuid, V)>, id: Uuid): (k: nat)
    ensures k <= |vertices|
    ensures k < |vertices| ==> vertices[k].0 == id
    ensures forall j :: 0 <= j < k ==> vertices[j].0 != id
  {
    if vertices == [] || vertices[0].0 == id then 0 else 1 + Position(vertices[1..], id)
  }

  predicate Contains<V, E>(g: Graph<V, E>, id: Uuid) {
    Position(g.vertices, id) < |g.vertices|
  }

  function ValueOf<V, E>(g: Graph<V, E>, id: Uuid): Option<V> {
    if Contains(g, id) then Some(g.vertices[Position(g.vertices, id)].1) else None
  }

  function WithVertex<V, E>(g: Graph<V, E>, id: Uuid, v: V): Graph<V, E> {
    var k := Position(g.vertices, id);
    g.(vertices := if k < |g.vertices| then g.vertices[k := (g.vertices[k].0, v)] else g.vertices + [(id, v)])
  }

  function WithDefault<V, E>(g: Graph<V, E>, id: Uuid, default: V): Graph<V, E> {
    if Contains(g, id) then g else WithVertex(g, id, default)
  }

  function WithEdge<V, E>(g: Graph<V, E>, e: (Uuid, Uuid, E), default: V): Graph<V, E> {
    var ends := WithDefault(WithDefault(g, e.0, default), e.1, default);
    ends.(edges := ends.edges + [e])
  }

  /** No vertex is listed twice and every edge joins listed vertices. */
  ghost predicate Proper<V, E>(g: Graph<V, E>) {
    && (forall i, j :: 0 <= i < j < |g.vertices| ==> g.vertices[i].0 != g.vertices[j].0)
    && forall k :: 0 <= k < |g.edges| ==> Contains(g, g.edges[k].0) && Contains(g, g.edges[k].1)
  }

  lemma PositionIs<V>(vertices: seq<(Uuid, V)>, id: Uuid, k: nat)
    requires k <= |vertices| && (k < |vertices| ==> vertices[k].0 == id)
    requires forall j :: 0 <= j < k ==> vertices[j].0 != id
    ensures Position(vertices, id) == k
  {
  }

  /** Adding a vertex overwrites its value or appends it, and leaves every other vertex its
      value; a listed vertex keeps its place. */
  lemma VertexLaw<V, E>(g: Graph<V, E>, id: Uuid, v: V, other: Uuid)
    ensures ValueOf(WithVertex(g, id, v), other) == if other == id then Some(v) else ValueOf(g, other)
    ensures Contains(g, other) ==> Position(WithVertex(g, id, v).vertices, other) == Position(g.vertices, other)
  {
    var vertices := WithVertex(g, id, v).vertices;
    if Contains(g, other) {
      PositionIs(vertices, other, Position(g.vertices, other));
    } else if other == id {
      PositionIs(vertices, other, |g.vertices|);
    } else {
      PositionIs(vertices, other, |vertices|);
    }
  }

  /** Adding an edge appends it, lists its missing ends with the default value, and changes no
      value. */
  lemma EdgeLaw<V, E>(g: Graph<V, E>, e: (Uuid, Uuid, E), default: V, other: Uuid)
    ensures ValueOf(WithEdge(g, e, default), other)
         == if Contains(g, other) then ValueOf(g, other)
            else if other == e.0 || other == e.1 then Some(default) else None
    ensures WithEdge(g, e, default).edges == g.edges + [e]
  {
    var g' := WithDefault(g, e.0, default);
    VertexLaw(g, e.0, default, other);
    VertexLaw(g, e.0, default, e.1);
    VertexLaw(g', e.1, default, other);
    assert WithEdge(g, e, default).vertices == WithDefault(g', e.1, default).vertices;
  }

  /** The missing ends go to the end of the list, the first before the second. */
  lemma EdgeVertices<V, E>(g: Graph<V, E>, e: (Uuid, Uuid, E), default: V)
    ensures WithEdge(g, e, default).vertices
         == g.vertices + (if Contains(g, e.0) then [] else [(e.0, default)])
            + (if Contains(g, e.1) || e.1 == e.0 then [] else [(e.1, default)])
  {
    VertexLaw(g, e.0, default, e.1);
    hide Position;
  }

  lemma VertexKeepsProper<V, E>(g: Graph<V, E>, id: Uuid, v: V)
    requires Proper(g)
    ensures Proper(WithVertex(g, id, v))
  {
    forall k | 0 <= k < |g.edges|
      ensures Contains(WithVertex(g, id, v), g.edges[k].0) && Contains(WithVertex(g, id, v), g.edges[k].1)
    {
      VertexLaw(g, id, v, g.edges[k].0);
      VertexLaw(g, id, v, g.edges[k].1);
    }
  }

  lemma EdgeKeepsProper<V, E>(g: Graph<V, E>, e: (Uuid, Uuid, E), default: V)
    requires Proper(g)
    ensures Proper(WithEdge(g, e, default))
  {
    VertexKeepsProper(g, e.0, default);
    VertexKeepsProper(WithDefault(g, e.0, default), e.1, default);
    var after := WithEdge(g, e, default);
    forall k | 0 <= k < |after.edges|
      ensures Contains(after, after.edges[k].0) && Contains(after, after.edges[k].1)
    {
      EdgeLaw(g, e, default, after.edges[k].0);
      EdgeLaw(g, e, default, after.edges[k].1);
    }
  }

  // ---- runs of the add operations ----

  datatype Add<V, E> = AddVertex(id: Uuid, value: V) | AddEdge(edge: (Uuid, Uuid, E))

  function Build<V, E>(adds: seq<Add<V, E>>, default: V): Graph<V, E> {
    if adds == [] then Graph([], [])
    else
      var g := Build(adds[..|adds| - 1], default);
      match adds[|adds| - 1]
      case AddVertex(id, v) => WithVertex(g, id, v)
      case AddEdge(e) => WithEdge(g, e, default)
  }

  /** Every topology built by the add operations is proper. */
  lemma {:induction false} BuiltIsProper<V, E>(adds: seq<Add<V, E>>, default: V)
    ensures Proper(Build(adds, default))
  {
    if adds != [] {
      BuiltIsProper(adds[..|adds| - 1], default);
      var g := Build(adds[..|adds| - 1], default);
      match adds[|adds| - 1] {
        case AddVertex(id, v) => VertexKeepsProper(g, id, v);
        case AddEdge(e) => EdgeKeepsProper(g, e, default);
      }
    }
  }

  // ---- the class ----

  class Topology<V, E> {
    const default: V
    var vertices: seq<(Uuid, V)>
    var edges: seq<(Uuid, Uuid, E)>

    ghost function Model(): Graph<V, E>
      reads this
    {
      Graph(vertices, edges)
    }

    constructor (default: V)
      ensures Model() == Graph([], []) && this.default == default
    {
      this.default, vertices, edges := default, [], [];
    }

    method ContainsVertex(id: Uuid) returns (found: bool)
      ensures found == Contains(Model(), id)
    {
      found := false;
      for i := 0 to |vertices|
        invariant forall j :: 0 <= j < i ==> vertices[j].0 != id
      {
        if vertices[i].0 == id {
          return true;
        }
      }
    }

    method AddVertex(id: Uuid, value: V)
      modifies this`vertices
      ensures Model() == WithVertex(old(Model()), id, value)
    {
      for i := 0 to |vertices|
        invariant vertices == old(vertices)
        invariant forall j :: 0 <= j < i ==> vertices[j].0 != id
      {
        if vertices[i].0 == id {
          PositionIs(vertices, id, i);
          vertices := vertices[i := (vertices[i].0, value)];
          return;
        }
      }
      PositionIs(vertices, id, |vertices|);
      vertices := vertices + [(id, value)];
    }

    method AddEdge(edge: (Uuid, Uuid, E))
      modifies this
      ensures Model() == WithEdge(old(Model()), edge, default)
    {
      var found := ContainsVertex(edge.0);
      if !found {
        AddVertex(edge.0, default);
      }
      found := ContainsVertex(edge.1);
      if !found {
        AddVertex(edge.1, default);
      }
      edges := edges + [edge];
    }

    constructor FromEdges(edges: seq<(Uuid, Uuid, E)>, default: V)
      ensures Model() == Build(EdgeAdds(edges), default) && this.default == default
    {
      this.default, vertices, this.edges := default, [], [];
      new;
      for i := 0 to |edges|
        invariant Model() == Build(EdgeAdds(edges[..i]), default) && this.default == default
      {
        assert edges[..i + 1][..i] == edges[..i];
        AddEdge(edges[i]);
      }
      assert edges[..|edges|] == edges;
    }
  }

  function EdgeAdds<V, E>(edges: seq<(Uuid, Uuid, E)>): seq<Add<V, E>> {
    if edges == [] then [] else EdgeAdds(edges[..|edges| - 1]) + [AddEdge(edges[|edges| - 1])]
  }
}
