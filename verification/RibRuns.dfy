/** Whole runs of the shared table: any interleaving of registrations, insertions, removals
    and clears by its routers (src/components/bgp/bgp_rib.rs). */
module RibRuns {
  import opened Wrappers
  import opened RouterMaskMaps
  import opened IpNetworks
  import opened Routes
  import opened RibEntries
  import opened Ribs

  datatype RibOp =
    | RegisterOp(id: Uuid)
    | InsertOp(id: Uuid, route: Route)
    | RemoveOp(id: Uuid, route: Route)
    | ClearOp

  predicate Admits(s: Rib, op: RibOp) {
    op.ClearOp? || CanAcquire(s.alloc, op.id)
  }

  function Apply(s: Rib, op: RibOp): Rib
    requires Admits(s, op)
  {
    match op
    case RegisterOp(id) => RegisterRouter(s, id)
    case InsertOp(id, route) => InsertRoute(s, route, id)
    case RemoveOp(id, route) => RemoveRoute(s, route, id)
    case ClearOp => FRESH
  }

  /** No operation of the run meets the allocator's panic. */
  predicate Finishes(s: Rib, ops: seq<RibOp>)
    decreases |ops|
  {
    ops == [] || (Admits(s, ops[0]) && Finishes(Apply(s, ops[0]), ops[1..]))
  }

  function Play(s: Rib, ops: seq<RibOp>): Rib
    requires Finishes(s, ops)
    decreases |ops|
  {
    if ops == [] then s else Play(Apply(s, ops[0]), ops[1..])
  }

  // ---- the simple structure: one router's set of routes ----

  function ReplayOne(mine: set<Route>, op: RibOp, id: Uuid): set<Route> {
    if op.ClearOp? then {}
    else if op.id != id || op.RegisterOp? then mine
    else if op.InsertOp? then mine + {op.route}
    else set x | x in mine && !SameSource(x, op.route)
  }

  function Replay(mine: set<Route>, ops: seq<RibOp>, id: Uuid): set<Route>
    decreases |ops|
  {
    if ops == [] then mine else Replay(ReplayOne(mine, ops[0], id), ops[1..], id)
  }

  /** The table holds for router `id` exactly the routes of `mine`, each at its prefix. */
  ghost predicate Agrees(s: Rib, id: Uuid, mine: set<Route>) {
    forall p, x :: x in RoutesOf(s, id, p) <==> x in mine && x.prefix == p
  }

  lemma InsertAgrees(s: Rib, r: Route, actor: Uuid, id: Uuid, mine: set<Route>)
    requires RibInv(s) && Agrees(s, id, mine) && CanAcquire(s.alloc, actor)
    ensures Agrees(InsertRoute(s, r, actor), id, ReplayOne(mine, InsertOp(actor, r), id))
  {
    hide RoutesOf, InsertRoute, RibInv;
    var s', mine' := InsertRoute(s, r, actor), ReplayOne(mine, InsertOp(actor, r), id);
    forall p, x ensures x in RoutesOf(s', id, p) <==> x in mine' && x.prefix == p {
      if actor != id || p != r.prefix {
        InsertLeaves(s, r, actor, id, p);
      } else {
        InsertAdds(s, r, actor, x);
      }
    }
  }

  lemma RemoveAgrees(s: Rib, r: Route, actor: Uuid, id: Uuid, mine: set<Route>)
    requires RibInv(s) && Agrees(s, id, mine) && CanAcquire(s.alloc, actor)
    ensures Agrees(RemoveRoute(s, r, actor), id, ReplayOne(mine, RemoveOp(actor, r), id))
  {
    hide RoutesOf, RemoveRoute, RibInv;
    var s', mine' := RemoveRoute(s, r, actor), ReplayOne(mine, RemoveOp(actor, r), id);
    forall p, x ensures x in RoutesOf(s', id, p) <==> x in mine' && x.prefix == p {
      if actor != id || p != r.prefix {
        RemoveLeaves(s, r, actor, id, p);
      } else {
        RemoveTakes(s, r, actor);
        FilterMember(RoutesOf(s, id, p), NotFrom(r), x);
      }
    }
  }

  lemma RegisterAgrees(s: Rib, actor: Uuid, id: Uuid, mine: set<Route>)
    requires RibInv(s) && Agrees(s, id, mine) && CanAcquire(s.alloc, actor)
    ensures Agrees(RegisterRouter(s, actor), id, mine)
  {
    hide RoutesOf, RegisterRouter, RibInv;
    forall p ensures RoutesOf(RegisterRouter(s, actor), id, p) == RoutesOf(s, id, p) {
      RegisterFrame(s, actor, id, p);
    }
  }

  lemma FreshAgrees(id: Uuid)
    ensures RibInv(FRESH) && Agrees(FRESH, id, {})
  {
  }

  lemma ApplyInv(s: Rib, op: RibOp)
    requires RibInv(s) && Admits(s, op)
    ensures RibInv(Apply(s, op))
  {
    hide RibInv;
    match op {
      case RegisterOp(actor) => RegisterKeepsInv(s, actor);
      case InsertOp(actor, r) => InsertKeepsInv(s, r, actor);
      case RemoveOp(actor, r) => RemoveKeepsInv(s, r, actor);
      case ClearOp => FreshAgrees(0);
    }
  }

  /** Every operation keeps the agreement with the simple structure, whichever router
      performs it. */
  lemma ApplyAgrees(s: Rib, op: RibOp, id: Uuid, mine: set<Route>)
    requires RibInv(s) && Agrees(s, id, mine) && Admits(s, op)
    ensures Agrees(Apply(s, op), id, ReplayOne(mine, op, id))
  {
    hide RibInv, Agrees, RegisterRouter, InsertRoute, RemoveRoute;
    match op {
      case RegisterOp(actor) => RegisterAgrees(s, actor, id, mine);
      case InsertOp(actor, r) => InsertAgrees(s, r, actor, id, mine);
      case RemoveOp(actor, r) => RemoveAgrees(s, r, actor, id, mine);
      case ClearOp => FreshAgrees(id);
    }
  }

  /** Refinement: after any run the masked table implements, for each router, the plain set
      of routes obtained by replaying the run; and the representation invariant holds. */
  lemma {:induction false} RunRefines(s: Rib, ops: seq<RibOp>, id: Uuid, mine: set<Route>)
    requires RibInv(s) && Agrees(s, id, mine) && Finishes(s, ops)
    ensures RibInv(Play(s, ops))
    ensures Agrees(Play(s, ops), id, Replay(mine, ops, id))
    decreases |ops|
  {
    hide RibInv, Agrees, Apply, ReplayOne;
    if ops != [] {
      ApplyInv(s, ops[0]);
      ApplyAgrees(s, ops[0], id, mine);
      RunRefines(Apply(s, ops[0]), ops[1..], id, ReplayOne(mine, ops[0], id));
    }
  }

  /** The routes a router holds, as a set. */
  function HeldSet(s: Rib, id: Uuid): set<Route> {
    set p, x | p in s.table.Keys && x in RoutesOf(s, id, p) :: x
  }

  /** Any valid table agrees with the set it holds, so the refinement starts anywhere. */
  lemma HeldSetAgrees(s: Rib, id: Uuid)
    requires RibInv(s)
    ensures Agrees(s, id, HeldSet(s, id))
  {
    forall p, x | x in RoutesOf(s, id, p)
      ensures x.prefix == p && p in s.table
    {
      ViewMember(EntryAt(s, p), {s.alloc.owners[id]}, x);
    }
  }

  /** An operation stores nothing but the route it inserts. */
  lemma ApplyStores(s: Rib, op: RibOp, p: IpNetwork, x: Route)
    requires Admits(s, op) && Stored(EntryAt(Apply(s, op), p), x)
    ensures Stored(EntryAt(s, p), x) || (op.InsertOp? && op.route == x && x.prefix == p)
  {
    match op {
      case InsertOp(id, r) =>
        InsertAfterRegister(s, r, id);
        InsertStored(EntryAt(s, p), {Acquire(s.alloc, id).owners[id]}, r, x);
      case RemoveOp(id, r) =>
        RemoveAfterRegister(s, r, id);
        if p == r.prefix {
          WithdrawStored(EntryAt(s, p), {Acquire(s.alloc, id).owners[id]}, r, x);
        }
      case _ =>
    }
  }

  /** Whatever a run leaves stored was stored before or inserted by it. */
  lemma {:induction false} PlayStores(s: Rib, ops: seq<RibOp>, p: IpNetwork, x: Route)
    requires Finishes(s, ops) && Stored(EntryAt(Play(s, ops), p), x)
    ensures Stored(EntryAt(s, p), x) || (x.prefix == p && exists op <- ops :: op.InsertOp? && op.route == x)
    decreases |ops|
  {
    hide Apply, EntryAt;
    if ops != [] {
      PlayStores(Apply(s, ops[0]), ops[1..], p, x);
      if Stored(EntryAt(Apply(s, ops[0]), p), x) {
        ApplyStores(s, ops[0], p, x);
        if ops[0].InsertOp? && ops[0].route == x {
          assert ops[0] in ops;
        }
      }
    }
  }

  // ---- interleaving independence ----

  function Concerns(id: Uuid): RibOp -> bool {
    (op: RibOp) => op.ClearOp? || op.id == id
  }

  /** What router `id` would see of the run alone: its own operations and the clears. */
  function Project(ops: seq<RibOp>, id: Uuid): seq<RibOp> {
    Filter(ops, Concerns(id))
  }

  lemma {:induction false} ReplayProjects(mine: set<Route>, ops: seq<RibOp>, id: Uuid)
    ensures Replay(mine, Project(ops, id), id) == Replay(mine, ops, id)
    decreases |ops|
  {
    if ops != [] {
      ReplayProjects(ReplayOne(mine, ops[0], id), ops[1..], id);
      var rest := Project(ops[1..], id);
      if Concerns(id)(ops[0]) {
        assert ([ops[0]] + rest)[1..] == rest;
      } else {
        assert [] + rest == rest;
      }
    }
  }

  predicate WithinIds(ops: seq<RibOp>, ids: set<Uuid>) {
    forall op <- ops :: op.ClearOp? || op.id in ids
  }

  /** Every operation registers its router, and a clear forgets all. */
  lemma ApplyOwners(s: Rib, op: RibOp)
    requires Admits(s, op)
    ensures Apply(s, op).alloc.owners.Keys == if op.ClearOp? then {} else s.alloc.owners.Keys + {op.id}
  {
  }

  lemma SubsetSize<T>(a: set<T>, b: set<T>)
    requires a < b
    ensures |a| < |b|
  {
    assert b == a + (b - a);
    assert b - a != {};
  }

  /** A run by at most 64 routers never meets the panic, and registers nobody else. */
  lemma {:induction false} FewRoutersFinish(s: Rib, ops: seq<RibOp>, ids: set<Uuid>)
    requires RibInv(s) && s.alloc.owners.Keys <= ids && |ids| <= 64 && WithinIds(ops, ids)
    ensures Finishes(s, ops) && Play(s, ops).alloc.owners.Keys <= ids
    decreases |ops|
  {
    if ops != [] {
      var op := ops[0];
      if !op.ClearOp? {
        FullIff64(s.alloc, op.id);
        if op.id !in s.alloc.owners {
          SubsetSize(s.alloc.owners.Keys, ids);
          assert |s.alloc.owners.Keys| == |s.alloc.owners|;
        }
      }
      ApplyOwners(s, op);
      ApplyInv(s, op);
      FewRoutersFinish(Apply(s, op), ops[1..], ids);
    }
  }

  lemma {:induction false} ProjectWithin(ops: seq<RibOp>, id: Uuid)
    ensures WithinIds(Project(ops, id), {id})
  {
    if ops != [] {
      ProjectWithin(ops[1..], id);
    }
  }

  /** Alone, a router's run always finishes. */
  lemma ProjectionFinishes(ops: seq<RibOp>, id: Uuid)
    ensures Finishes(FRESH, Project(ops, id))
    ensures Play(FRESH, Project(ops, id)).alloc.owners.Keys <= {id}
  {
    ProjectWithin(ops, id);
    FreshAgrees(id);
    FewRoutersFinish(FRESH, Project(ops, id), {id});
  }

  lemma RunFromFresh(ops: seq<RibOp>, id: Uuid)
    requires Finishes(FRESH, ops)
    ensures RibInv(Play(FRESH, ops)) && Agrees(Play(FRESH, ops), id, Replay({}, ops, id))
  {
    FreshAgrees(id);
    RunRefines(FRESH, ops, id, {});
  }

  /** Interleaving independence: on the shared table each router holds, at every prefix,
      exactly the routes it would hold had it used a table of its own. */
  lemma InterleavingIndependence(ops: seq<RibOp>, id: Uuid, p: IpNetwork, x: Route)
    requires Finishes(FRESH, ops)
    ensures Finishes(FRESH, Project(ops, id))
    ensures x in RoutesOf(Play(FRESH, ops), id, p) <==> x in RoutesOf(Play(FRESH, Project(ops, id)), id, p)
  {
    hide RoutesOf, Finishes, Play;
    ProjectionFinishes(ops, id);
    RunFromFresh(ops, id);
    RunFromFresh(Project(ops, id), id);
    ReplayProjects({}, ops, id);
  }

  // ---- lookup against a private table ----

  /** In a table used by one router, every stored prefix holds a route of that router. */
  lemma AloneHoldsAll(s: Rib, id: Uuid, p: IpNetwork)
    requires RibInv(s) && s.alloc.owners.Keys <= {id}
    ensures p in s.table <==> RoutesOf(s, id, p) != []
  {
    if p in s.table {
      var t := s.table[p][0];
      assert t in s.table[p] && t.holders <= s.alloc.taken && t.holders != {};
      var slot :| slot in t.holders;
      assert slot in s.alloc.owners.Values;
      assert HeldBy(t, {s.alloc.owners[id]});
    }
  }

  /** The shared table's longest match belongs to other routers only, while `id` itself holds
      a shorter covering prefix. */
  ghost predicate Shadowed(s: Rib, address: IpAddr, id: Uuid) {
    match LongestMatch(s.table.Keys, address)
    case None => false
    case Some(p) => RoutesOf(s, id, p) == [] && exists q :: Covers(q, address) && RoutesOf(s, id, q) != []
  }

  predicate SameKey(a: Option<Route>, b: Option<Route>) {
    match (a, b)
    case (None, None) => true
    case (Some(x), Some(y)) => Key(x) == Key(y)
    case _ => false
  }

  lemma HoldingIsStored(s: Rib, id: Uuid, p: IpNetwork)
    requires RoutesOf(s, id, p) != []
    ensures p in s.table
  {
  }

  /** When nothing shadows the router, the shared and the private longest match agree. */
  lemma SameLongest(s: Rib, t: Rib, id: Uuid, address: IpAddr, p: IpNetwork)
    requires RibInv(t) && t.alloc.owners.Keys <= {id}
    requires forall q, x :: x in RoutesOf(s, id, q) <==> x in RoutesOf(t, id, q)
    requires LongestMatch(s.table.Keys, address) == Some(p) && RoutesOf(s, id, p) != []
    ensures LongestMatch(t.table.Keys, address) == Some(p)
  {
    hide RoutesOf, LongestMatch;
    LongestMatchIsLongest(s.table.Keys, address);
    assert RoutesOf(s, id, p)[0] in RoutesOf(t, id, p);
    AloneHoldsAll(t, id, p);
    forall q <- t.table.Keys | Covers(q, address) && q != p
      ensures q.len < p.len
    {
      AloneHoldsAll(t, id, q);
      assert RoutesOf(t, id, q)[0] in RoutesOf(s, id, q);
      HoldingIsStored(s, id, q);
    }
    LongestIsUnique(t.table.Keys, address, p);
  }

  lemma LookupFound(s: Rib, t: Rib, id: Uuid, address: IpAddr)
    requires RibInv(t) && t.alloc.owners.Keys <= {id}
    requires forall q, x :: x in RoutesOf(s, id, q) <==> x in RoutesOf(t, id, q)
    requires RoutesForRouter(s, address, id) != []
    ensures SameKey(BestRouteForRouter(s, address, id), BestRouteForRouter(t, address, id))
    ensures BestRouteForRouter(s, address, id).Some?
  {
    var p := LongestMatch(s.table.Keys, address).value;
    SameLongest(s, t, id, address, p);
    BestKeyOfSet(RoutesOf(s, id, p), RoutesOf(t, id, p));
    BestMember(RoutesOf(s, id, p));
  }

  lemma LookupMissed(s: Rib, t: Rib, id: Uuid, address: IpAddr)
    requires RibInv(t) && t.alloc.owners.Keys <= {id}
    requires forall q, x :: x in RoutesOf(s, id, q) <==> x in RoutesOf(t, id, q)
    requires RoutesForRouter(s, address, id) == []
    ensures BestRouteForRouter(s, address, id) == None
    ensures BestRouteForRouter(t, address, id) == None <==> !Shadowed(s, address, id)
  {
    LongestMatchIsLongest(s.table.Keys, address);
    LongestMatchIsLongest(t.table.Keys, address);
    hide RoutesOf, LongestMatch;
    forall q
      ensures RoutesOf(s, id, q) != [] <==> q in t.table
      ensures RoutesOf(s, id, q) != [] ==> q in s.table
    {
      SameMembersEmpty(RoutesOf(s, id, q), RoutesOf(t, id, q));
      AloneHoldsAll(t, id, q);
      if RoutesOf(s, id, q) != [] { HoldingIsStored(s, id, q); }
    }
    match LongestMatch(t.table.Keys, address) {
      case None =>
      case Some(p) =>
        assert RoutesOf(s, id, p) != [];
        AloneHoldsAll(t, id, p);
        BestMember(RoutesOf(t, id, p));
    }
  }

  lemma SameMembersEmpty(a: seq<Route>, b: seq<Route>)
    requires forall x :: x in a <==> x in b
    ensures a == [] <==> b == []
  {
    if a != [] { assert a[0] in b; }
    if b != [] { assert b[0] in a; }
  }

  /** After any run, a router's lookup on the shared table has the path length and peer of its
      lookup on a table of its own exactly when the router is not shadowed; a shadowed router
      finds nothing. */
  lemma LookupAgreesIff(ops: seq<RibOp>, id: Uuid, address: IpAddr)
    requires Finishes(FRESH, ops)
    ensures Finishes(FRESH, Project(ops, id))
    ensures var s, t := Play(FRESH, ops), Play(FRESH, Project(ops, id));
            && (SameKey(BestRouteForRouter(s, address, id), BestRouteForRouter(t, address, id))
                <==> !Shadowed(s, address, id))
            && (Shadowed(s, address, id) ==> BestRouteForRouter(s, address, id) == None)
  {
    ProjectionFinishes(ops, id);
    RunFromFresh(Project(ops, id), id);
    var s, t := Play(FRESH, ops), Play(FRESH, Project(ops, id));
    forall q, x ensures x in RoutesOf(s, id, q) <==> x in RoutesOf(t, id, q) {
      InterleavingIndependence(ops, id, q, x);
    }
    hide Finishes, Play, RoutesOf, RibInv, LongestMatch;
    if RoutesForRouter(s, address, id) == [] {
      LookupMissed(s, t, id, address);
    } else {
      LookupFound(s, t, id, address);
    }
  }

  lemma PlayTwo(s: Rib, a: RibOp, b: RibOp)
    requires Admits(s, a) && Admits(Apply(s, a), b)
    ensures Finishes(s, [a, b]) && Play(s, [a, b]) == Apply(Apply(s, a), b)
  {
    hide Apply, Admits;
    var s1 := Apply(s, a);
    var s2 := Apply(s1, b);
    assert [b][1..] == [];
    assert Finishes(s2, []) && Play(s2, []) == s2;
    assert Finishes(s1, [b]) && Play(s1, [b]) == s2;
    assert [a, b][1..] == [b];
  }

  lemma TwoFinish(s: Rib, a: RibOp, b: RibOp)
    requires Finishes(s, [a, b])
    ensures Admits(s, a) && Admits(Apply(s, a), b)
  {
    hide Apply, Admits;
    assert [a, b][1..] == [b];
    assert [a, b][0] == a && [b][0] == b;
  }

  lemma TwoInserts(r: Route, specific: Route, id: Uuid, other: Uuid, address: IpAddr)
    requires id != other && r.prefix != specific.prefix
    requires CanAcquire(FRESH.alloc, id) && CanAcquire(InsertRoute(FRESH, r, id).alloc, other)
    ensures var s := InsertRoute(InsertRoute(FRESH, r, id), specific, other);
            && s.table.Keys == {r.prefix, specific.prefix}
            && RoutesOf(s, id, r.prefix) != [] && RoutesOf(s, id, specific.prefix) == []
  {
    FreshAgrees(id);
    InsertKeepsInv(FRESH, r, id);
    InsertAdds(FRESH, r, id, r);
    InsertLeaves(FRESH, r, id, id, specific.prefix);
    var s1 := InsertRoute(FRESH, r, id);
    InsertLeaves(s1, specific, other, id, r.prefix);
    InsertLeaves(s1, specific, other, id, specific.prefix);
  }

  /** Shadowing does happen: another router's more specific prefix hides a router's own
      covering route, whatever the routes are. */
  lemma MoreSpecificShadows(r: Route, specific: Route, id: Uuid, other: Uuid, address: IpAddr)
    requires id != other && Covers(r.prefix, address) && Covers(specific.prefix, address)
    requires r.prefix.len < specific.prefix.len
    ensures var ops := [InsertOp(id, r), InsertOp(other, specific)];
            && Finishes(FRESH, ops)
            && Shadowed(Play(FRESH, ops), address, id)
  {
    var ops := [InsertOp(id, r), InsertOp(other, specific)];
    FreshAgrees(id);
    assert |{id, other}| == 2;
    FewRoutersFinish(FRESH, ops, {id, other});
    TwoFinish(FRESH, ops[0], ops[1]);
    hide Finishes, Play, RoutesOf, RibInv, LongestMatch, CanAcquire;
    PlayTwo(FRESH, ops[0], ops[1]);
    TwoInserts(r, specific, id, other, address);
    var keys := {r.prefix, specific.prefix};
    LongestIsUnique(keys, address, specific.prefix);
  }
}
