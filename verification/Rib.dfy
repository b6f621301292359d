/** The routing table shared by up to 64 routers (`BgpRib` in src/components/bgp/bgp_rib.rs):
    its operations as functions on table states, and the class that performs them in place. */
module Ribs {
  import opened Wrappers
  import opened RouterMaskMaps
  import opened IpNetworks
  import opened Routes
  import opened RibEntries

  datatype Rib = Rib(alloc: Allocator, table: map<IpNetwork, seq<Tagged>>)

  const FRESH := Rib(EMPTY, map[])

  function EntryAt(s: Rib, p: IpNetwork): seq<Tagged> {
    if p in s.table then s.table[p] else []
  }

  /** The representation invariant: no entry is empty, masks are nonempty and within the
      allocated positions, routes are stored once and under their own prefix. */
  ghost predicate RibInv(s: Rib) {
    && AllocInv(s.alloc)
    && forall p <- s.table :: s.table[p] != [] && EntryOk(s.alloc.taken, p, s.table[p])
  }

  ghost predicate EntryOk(taken: set<nat>, p: IpNetwork, rs: seq<Tagged>) {
    && EntryInv(rs)
    && forall t <- rs :: t.holders <= taken && t.route.prefix == p
  }

  // ---- operations ----

  function RegisterRouter(s: Rib, id: Uuid): Rib
    requires CanAcquire(s.alloc, id)
  {
    s.(alloc := Acquire(s.alloc, id))
  }

  function InsertRoute(s: Rib, r: Route, id: Uuid): Rib
    requires CanAcquire(s.alloc, id)
  {
    var a := Acquire(s.alloc, id);
    Rib(a, s.table[r.prefix := Inserted(EntryAt(s, r.prefix), {a.owners[id]}, r)])
  }

  /** The report compares with the routes of all routers at the prefix. */
  function InsertReport(s: Rib, r: Route): Option<Route> {
    if r.prefix !in s.table then Some(r)
    else if Best(AllRoutes(s.table[r.prefix]) + [r]) == Some(r) then Some(r)
    else None
  }

  function RemoveRoute(s: Rib, r: Route, id: Uuid): Rib
    requires CanAcquire(s.alloc, id)
  {
    var a := Acquire(s.alloc, id);
    if r.prefix !in s.table then s.(alloc := a)
    else
      var rs := Withdrawn(s.table[r.prefix], {a.owners[id]}, r);
      Rib(a, if rs == [] then s.table - {r.prefix} else s.table[r.prefix := rs])
  }

  function RemoveReport(s: Rib, r: Route): Option<Route> {
    if r.prefix in s.table && Best(AllRoutes(s.table[r.prefix])) == Some(r) then Some(r) else None
  }

  // ---- queries ----

  /** What `get_with_mask` returns for one router at one prefix. */
  function RoutesOf(s: Rib, id: Uuid, p: IpNetwork): seq<Route> {
    if id in s.alloc.owners then View(EntryAt(s, p), {s.alloc.owners[id]}) else []
  }

  /** `get_routes_for_router`: the longest match is taken on the table of all routers. */
  function RoutesForRouter(s: Rib, address: IpAddr, id: Uuid): seq<Route> {
    match LongestMatch(s.table.Keys, address)
    case None => []
    case Some(p) => RoutesOf(s, id, p)
  }

  function BestRouteForRouter(s: Rib, address: IpAddr, id: Uuid): Option<Route> {
    Best(RoutesForRouter(s, address, id))
  }

  // ---- one step ----

  /** A position outside the allocated ones is nobody's, so its view is empty. */
  lemma {:induction false} UnallocatedSeesNothing(rs: seq<Tagged>, taken: set<nat>, slot: nat)
    requires slot !in taken && forall t <- rs :: t.holders <= taken
    ensures View(rs, {slot}) == []
  {
    if rs != [] {
      UnallocatedSeesNothing(rs[1..], taken, slot);
    }
  }

  /** Registering changes no router's routes; in particular a newcomer sees nothing. */
  lemma RegisterFrame(s: Rib, id: Uuid, other: Uuid, p: IpNetwork)
    requires RibInv(s) && CanAcquire(s.alloc, id)
    ensures RibInv(RegisterRouter(s, id))
    ensures RoutesOf(RegisterRouter(s, id), other, p) == RoutesOf(s, other, p)
  {
    AcquireKeeps(s.alloc, id);
    if other == id && id !in s.alloc.owners {
      UnallocatedSeesNothing(EntryAt(s, p), s.alloc.taken, Acquire(s.alloc, id).owners[id]);
    }
  }

  lemma RegisterKeepsInv(s: Rib, id: Uuid)
    requires RibInv(s) && CanAcquire(s.alloc, id)
    ensures RibInv(RegisterRouter(s, id))
  {
    AcquireKeeps(s.alloc, id);
  }

  lemma InsertedOk(taken: set<nat>, rs: seq<Tagged>, who: set<nat>, r: Route)
    requires EntryOk(taken, r.prefix, rs) && who <= taken && who != {}
    ensures EntryOk(taken, r.prefix, Inserted(rs, who, r))
  {
    InsertKeeps(rs, who, r);
    InsertedWithin(taken, rs, who, r);
  }

  lemma {:induction false} InsertedWithin(taken: set<nat>, rs: seq<Tagged>, who: set<nat>, r: Route)
    requires who <= taken && forall t <- rs :: t.holders <= taken && t.route.prefix == r.prefix
    ensures forall t <- Inserted(rs, who, r) :: t.holders <= taken && t.route.prefix == r.prefix
  {
    if rs != [] {
      InsertedWithin(taken, rs[1..], who, r);
    }
  }

  lemma {:induction false} WithdrawnWithin(taken: set<nat>, rs: seq<Tagged>, who: set<nat>, r: Route)
    requires forall t <- rs :: t.holders <= taken && t.route.prefix == r.prefix
    ensures forall t <- Withdrawn(rs, who, r) :: t.holders <= taken && t.route.prefix == r.prefix
  {
    if rs != [] {
      WithdrawnWithin(taken, rs[1..], who, r);
    }
  }

  lemma InsertKeepsInv(s: Rib, r: Route, id: Uuid)
    requires RibInv(s) && CanAcquire(s.alloc, id)
    ensures RibInv(InsertRoute(s, r, id))
  {
    var s' := RegisterRouter(s, id);
    RegisterFrame(s, id, id, r.prefix);
    AcquireKeeps(s.alloc, id);
    var slot := s'.alloc.owners[id];
    InsertedOk(s'.alloc.taken, EntryAt(s', r.prefix), {slot}, r);
    InsertKeeps(EntryAt(s', r.prefix), {slot}, r);
  }

  lemma RemoveKeepsInv(s: Rib, r: Route, id: Uuid)
    requires RibInv(s) && CanAcquire(s.alloc, id)
    ensures RibInv(RemoveRoute(s, r, id))
  {
    var s' := RegisterRouter(s, id);
    RegisterFrame(s, id, id, r.prefix);
    AcquireKeeps(s.alloc, id);
    if r.prefix in s.table {
      var slot := s'.alloc.owners[id];
      WithdrawKeeps(s.table[r.prefix], slot, r);
      WithdrawnWithin(s'.alloc.taken, s.table[r.prefix], {slot}, r);
    }
  }

  // Both operations first register the caller; the rest of the step happens at one entry.

  lemma InsertAfterRegister(s: Rib, r: Route, id: Uuid)
    requires CanAcquire(s.alloc, id)
    ensures var s' := RegisterRouter(s, id);
            InsertRoute(s, r, id) == InsertRoute(s', r, id) && InsertRoute(s, r, id).alloc == s'.alloc
    ensures var slot := Acquire(s.alloc, id).owners[id];
            forall p :: EntryAt(InsertRoute(s, r, id), p)
                     == if p == r.prefix then Inserted(EntryAt(s, p), {slot}, r) else EntryAt(s, p)
  {
  }

  lemma RemoveAfterRegister(s: Rib, r: Route, id: Uuid)
    requires CanAcquire(s.alloc, id)
    ensures var s' := RegisterRouter(s, id);
            RemoveRoute(s, r, id) == RemoveRoute(s', r, id) && RemoveRoute(s, r, id).alloc == s'.alloc
    ensures var slot := Acquire(s.alloc, id).owners[id];
            forall p :: EntryAt(RemoveRoute(s, r, id), p)
                     == if p == r.prefix then Withdrawn(EntryAt(s, p), {slot}, r) else EntryAt(s, p)
  {
  }

  /** Insertion by one router leaves every other router's list at every prefix, and its own
      lists at other prefixes, literally unchanged, order included. */
  lemma InsertLeaves(s: Rib, r: Route, id: Uuid, other: Uuid, p: IpNetwork)
    requires RibInv(s) && CanAcquire(s.alloc, id)
    requires other != id || p != r.prefix
    ensures RoutesOf(InsertRoute(s, r, id), other, p) == RoutesOf(s, other, p)
  {
    RegisterFrame(s, id, other, p);
    AcquireKeeps(s.alloc, id);
    InsertAfterRegister(s, r, id);
    hide InsertRoute, Inserted, View, EntryAt;
    var a := Acquire(s.alloc, id);
    if other in a.owners && p == r.prefix {
      InsertFrame(EntryAt(s, p), {a.owners[id]}, r, a.owners[other]);
    }
  }

  /** Insertion adds exactly the one route to the router's own list. */
  lemma InsertAdds(s: Rib, r: Route, id: Uuid, x: Route)
    requires RibInv(s) && CanAcquire(s.alloc, id)
    ensures x in RoutesOf(InsertRoute(s, r, id), id, r.prefix)
       <==> x == r || x in RoutesOf(s, id, r.prefix)
  {
    RegisterFrame(s, id, id, r.prefix);
    AcquireKeeps(s.alloc, id);
    InsertAfterRegister(s, r, id);
    hide InsertRoute, Inserted, View, EntryAt;
    InsertOwn(EntryAt(s, r.prefix), Acquire(s.alloc, id).owners[id], r, x);
  }

  /** Removal by one router leaves every other router's list at every prefix, and its own
      lists at other prefixes, literally unchanged, also when the entry disappears. */
  lemma RemoveLeaves(s: Rib, r: Route, id: Uuid, other: Uuid, p: IpNetwork)
    requires RibInv(s) && CanAcquire(s.alloc, id)
    requires other != id || p != r.prefix
    ensures RoutesOf(RemoveRoute(s, r, id), other, p) == RoutesOf(s, other, p)
  {
    RegisterFrame(s, id, other, p);
    AcquireKeeps(s.alloc, id);
    RemoveAfterRegister(s, r, id);
    hide RemoveRoute, Withdrawn, View, EntryAt;
    var a := Acquire(s.alloc, id);
    if other in a.owners && p == r.prefix {
      WithdrawFrame(EntryAt(s, p), {a.owners[id]}, r, a.owners[other]);
    }
  }

  /** Removal takes exactly the router's own routes from that peer, keeping the order of the
      rest. */
  lemma RemoveTakes(s: Rib, r: Route, id: Uuid)
    requires RibInv(s) && CanAcquire(s.alloc, id)
    ensures RoutesOf(RemoveRoute(s, r, id), id, r.prefix) == Filter(RoutesOf(s, id, r.prefix), NotFrom(r))
  {
    RegisterFrame(s, id, id, r.prefix);
    AcquireKeeps(s.alloc, id);
    RemoveAfterRegister(s, r, id);
    hide RemoveRoute, Withdrawn, View, EntryAt;
    WithdrawOwn(EntryAt(s, r.prefix), Acquire(s.alloc, id).owners[id], r);
  }

  /** A router's list at a prefix is what is stored there for anybody, in stored order, without what
      the router does not hold. */
  lemma RoutesInStoredOrder(s: Rib, id: Uuid, p: IpNetwork)
    requires RibInv(s) && id in s.alloc.owners
    ensures RoutesOf(s, id, p) == Filter(AllRoutes(EntryAt(s, p)), HeldIn(EntryAt(s, p), s.alloc.owners[id]))
  {
    ViewInOrder(EntryAt(s, p), s.alloc.owners[id]);
  }

  /** A route that nobody has stored goes to the end of the caller's list. */
  lemma InsertAppends(s: Rib, r: Route, id: Uuid)
    requires RibInv(s) && CanAcquire(s.alloc, id) && !Stored(EntryAt(s, r.prefix), r)
    ensures RoutesOf(InsertRoute(s, r, id), id, r.prefix) == RoutesOf(s, id, r.prefix) + [r]
  {
    RegisterFrame(s, id, id, r.prefix);
    AcquireKeeps(s.alloc, id);
    InsertAfterRegister(s, r, id);
    var slot := Acquire(s.alloc, id).owners[id];
    InsertedNew(EntryAt(s, r.prefix), {slot}, r);
    ViewAppend(EntryAt(s, r.prefix), [Tagged({slot}, r)], {slot});
    assert [Tagged({slot}, r)][1..] == [];
  }

  // ---- lookups ----

  /** What a lookup returns: at the longest stored prefix that covers the address, the route of the
      router that none of its routes there beats and that beats all its later ones; nothing when no
      stored prefix covers, or when the router holds no route at the longest one. */
  lemma LookupIs(s: Rib, address: IpAddr, id: Uuid) returns (p: Option<IpNetwork>, k: nat)
    ensures match p
            case None =>
              && (forall q <- s.table :: !Covers(q, address))
              && RoutesForRouter(s, address, id) == [] && BestRouteForRouter(s, address, id) == None
            case Some(p) =>
              && IsLongest(s.table.Keys, address, p)
              && RoutesForRouter(s, address, id) == RoutesOf(s, id, p)
              && (RoutesOf(s, id, p) == [] ==> BestRouteForRouter(s, address, id) == None)
              && (RoutesOf(s, id, p) != [] ==>
                    && k < |RoutesOf(s, id, p)|
                    && BestRouteForRouter(s, address, id) == Some(RoutesOf(s, id, p)[k])
                    && (forall x <- RoutesOf(s, id, p) :: !Beats(x, RoutesOf(s, id, p)[k]))
                    && forall j :: k < j < |RoutesOf(s, id, p)| ==>
                         Beats(RoutesOf(s, id, p)[k], RoutesOf(s, id, p)[j]))
  {
    hide RoutesOf, LongestMatch;
    LongestMatchIsLongest(s.table.Keys, address);
    p, k := LongestMatch(s.table.Keys, address), 0;
    if p.Some? && RoutesOf(s, id, p.value) != [] {
      k := BestIsLastMaximum(RoutesOf(s, id, p.value));
    }
  }

  /** After a router has inserted a route that nobody had stored, at the longest prefix covering an
      address, its lookup returns that route exactly when none of its earlier ones there beats it: of
      tied routes the newest is returned. */
  lemma NewestOfTiedIsFound(s: Rib, r: Route, id: Uuid, address: IpAddr)
    requires RibInv(s) && CanAcquire(s.alloc, id) && !Stored(EntryAt(s, r.prefix), r)
    requires IsLongest(s.table.Keys + {r.prefix}, address, r.prefix)
    ensures BestRouteForRouter(InsertRoute(s, r, id), address, id) == Some(r)
       <==> forall x <- RoutesOf(s, id, r.prefix) :: !Beats(x, r)
  {
    InsertAppends(s, r, id);
    var s' := InsertRoute(s, r, id);
    assert s'.table.Keys == s.table.Keys + {r.prefix};
    LongestIsUnique(s'.table.Keys, address, r.prefix);
    hide InsertRoute, RoutesOf, LongestMatch, Best;
    BestAppend(RoutesOf(s, id, r.prefix), r);
  }

  // ---- undo ----

  lemma NothingFromPeer(s: Rib, r: Route, id: Uuid)
    requires RibInv(s) && id in s.alloc.owners
    requires forall x <- RoutesOf(s, id, r.prefix) :: x.peer != r.peer
    ensures EntryInv(EntryAt(s, r.prefix)) && HoldsNone(EntryAt(s, r.prefix), s.alloc.owners[id], r)
  {
    var slot, rs := s.alloc.owners[id], EntryAt(s, r.prefix);
    forall t <- rs | slot in t.holders ensures !SameSource(t.route, r) {
      ViewMember(rs, {slot}, t.route);
    }
  }

  lemma RemovePutsBack(s: Rib, r: Route, id: Uuid, rs: seq<Tagged>)
    requires id in s.alloc.owners && Withdrawn(rs, {s.alloc.owners[id]}, r) == EntryAt(s, r.prefix)
    requires r.prefix in s.table ==> s.table[r.prefix] != []
    ensures RemoveRoute(Rib(s.alloc, s.table[r.prefix := rs]), r, id) == s
  {
    hide Withdrawn;
    if r.prefix in s.table {
      assert s.table[r.prefix := rs][r.prefix := s.table[r.prefix]] == s.table;
    } else {
      assert s.table[r.prefix := rs] - {r.prefix} == s.table;
    }
  }

  /** Exact undo: when the router holds no route from that peer at that prefix, inserting one
      and removing it again restores the table literally, order, masks and absent entry included. */
  lemma UndoRestores(s: Rib, r: Route, id: Uuid)
    requires RibInv(s) && id in s.alloc.owners
    requires forall x <- RoutesOf(s, id, r.prefix) :: x.peer != r.peer
    ensures RemoveRoute(InsertRoute(s, r, id), r, id) == s
  {
    var slot, rs := s.alloc.owners[id], EntryAt(s, r.prefix);
    NothingFromPeer(s, r, id);
    InsertWithdraw(rs, slot, r);
    hide RemoveRoute, Inserted, Withdrawn;
    RemovePutsBack(s, r, id, Inserted(rs, {slot}, r));
  }

  lemma UndoLoses(s: Rib, r: Route, id: Uuid, x: Route)
    requires RibInv(s) && id in s.alloc.owners
    requires x in RoutesOf(s, id, r.prefix) && x.peer == r.peer
    ensures RemoveRoute(InsertRoute(s, r, id), r, id) != s
  {
    var slot := s.alloc.owners[id];
    ViewMember(EntryAt(s, r.prefix), {slot}, x);
    InsertKeepsInv(s, r, id);
    hide InsertRoute, RemoveRoute, View;
    var s1 := InsertRoute(s, r, id);
    RemoveTakes(s1, r, id);
    FilterMember(RoutesOf(s1, id, r.prefix), NotFrom(r), x);
  }

  /** Removal undoes insertion literally, entry order, other masks and absence of the entry
      included, exactly when the router held no route from that peer at that prefix. */
  lemma UndoIff(s: Rib, r: Route, id: Uuid)
    requires RibInv(s) && id in s.alloc.owners
    ensures RemoveRoute(InsertRoute(s, r, id), r, id) == s
       <==> forall x <- RoutesOf(s, id, r.prefix) :: x.peer != r.peer
  {
    hide *;
    if x :| x in RoutesOf(s, id, r.prefix) && x.peer == r.peer {
      UndoLoses(s, r, id, x);
    } else {
      UndoRestores(s, r, id);
    }
  }

  // ---- reports ----

  /** Merging keeps the list of routes; a route not stored yet is appended. */
  lemma {:induction false} InsertedRoutes(rs: seq<Tagged>, who: set<nat>, r: Route)
    ensures AllRoutes(Inserted(rs, who, r)) == if Stored(rs, r) then AllRoutes(rs) else AllRoutes(rs) + [r]
  {
    if rs != [] {
      assert Stored(rs, r) <==> rs[0].route == r || Stored(rs[1..], r) by {
        assert forall t :: t in rs <==> t == rs[0] || t in rs[1..];
      }
      if rs[0].route != r {
        InsertedRoutes(rs[1..], who, r);
      }
    }
  }

  /** The best route of all routers at a prefix. */
  function OverallBest(s: Rib, p: IpNetwork): Option<Route> {
    Best(AllRoutes(EntryAt(s, p)))
  }

  /** An insertion is reported exactly when no stored route of any router at the prefix beats
      it. Unreported, it leaves the overall best route unchanged; reported, the overall best
      has its key, and is the new route itself if that was not stored already. */
  lemma InsertReportIsExact(s: Rib, r: Route, id: Uuid)
    requires CanAcquire(s.alloc, id)
    ensures InsertReport(s, r) == if Unbeaten(AllRoutes(EntryAt(s, r.prefix)), r) then Some(r) else None
    ensures var best := OverallBest(InsertRoute(s, r, id), r.prefix);
            match InsertReport(s, r)
            case None => best == OverallBest(s, r.prefix)
            case Some(_) =>
              && best.Some? && Key(best.value) == Key(r)
              && (!Stored(EntryAt(s, r.prefix), r) ==> best == Some(r))
  {
    var rs := EntryAt(s, r.prefix);
    var all := AllRoutes(rs);
    InsertAfterRegister(s, r, id);
    InsertedRoutes(rs, {Acquire(s.alloc, id).owners[id]}, r);
    BestAppend(all, r);
    StoredInAll(rs, r);
    BestMember(all);
    hide Inserted, AllRoutes, InsertRoute, Best;
    if Stored(rs, r) && Unbeaten(all, r) {
      CmpIsPreorder(Best(all).value, r, r);
      CmpIsPreorder(r, Best(all).value, r);
    }
  }

  // ---- what a removal does to the best route ----

  function Survives(rs: seq<Tagged>, who: set<nat>, r: Route): Route -> bool {
    (x: Route) => !(SameSource(x, r) && Tagged(who, x) in rs)
  }

  lemma SurvivesTail(rs: seq<Tagged>, who: set<nat>, r: Route)
    requires rs != [] && EntryInv(rs)
    ensures Filter(AllRoutes(rs[1..]), Survives(rs[1..], who, r)) == Filter(AllRoutes(rs[1..]), Survives(rs, who, r))
  {
    hide Filter, AllRoutes;
    forall x | x in AllRoutes(rs[1..])
      ensures Survives(rs[1..], who, r)(x) == Survives(rs, who, r)(x)
    {
      StoredInAll(rs[1..], x);
    }
    FilterSame(AllRoutes(rs[1..]), Survives(rs[1..], who, r), Survives(rs, who, r));
  }

  lemma SurvivesHead(rs: seq<Tagged>, who: set<nat>, r: Route)
    requires rs != [] && EntryInv(rs)
    ensures AllRoutes(WithdrawOne(rs[0], who, r)) == if Survives(rs, who, r)(rs[0].route) then [rs[0].route] else []
  {
    assert Tagged(who, rs[0].route) in rs <==> rs[0].holders == who;
    var one := WithdrawOne(rs[0], who, r);
    assert |one| <= 1;
    assert one != [] ==> one[1..] == [];
  }

  /** A withdrawal drops the routes of the source whose only holders withdraw, and keeps the order
      of the others. */
  lemma {:induction false} WithdrawnRoutes(rs: seq<Tagged>, who: set<nat>, r: Route)
    requires EntryInv(rs)
    ensures AllRoutes(Withdrawn(rs, who, r)) == Filter(AllRoutes(rs), Survives(rs, who, r))
  {
    hide Survives, WithdrawOne;
    if rs != [] {
      WithdrawnRoutes(rs[1..], who, r);
      SurvivesTail(rs, who, r);
      SurvivesHead(rs, who, r);
      AllRoutesAppend(WithdrawOne(rs[0], who, r), Withdrawn(rs[1..], who, r));
      assert AllRoutes(rs)[1..] == AllRoutes(rs[1..]);
    }
  }

  lemma {:induction false} AllRoutesAppend(a: seq<Tagged>, b: seq<Tagged>)
    ensures AllRoutes(a + b) == AllRoutes(a) + AllRoutes(b)
  {
    if a == [] {
      assert a + b == b;
    } else {
      assert (a + b)[0] == a[0] && (a + b)[1..] == a[1..] + b;
      AllRoutesAppend(a[1..], b);
    }
  }

  /** The router holds the route and no other router does. */
  ghost predicate HoldsAlone(s: Rib, id: Uuid, x: Route) {
    && x in RoutesOf(s, id, x.prefix)
    && forall other :: other != id ==> x !in RoutesOf(s, other, x.prefix)
  }

  lemma {:induction false} StoredOnce(rs: seq<Tagged>, t: Tagged, u: Tagged)
    requires EntryInv(rs) && t in rs && u in rs && t.route == u.route
    ensures t == u
  {
    if t in rs[1..] && u in rs[1..] {
      StoredOnce(rs[1..], t, u);
    }
  }

  lemma TaggedIsAlone(s: Rib, id: Uuid, x: Route)
    requires RibInv(s) && id in s.alloc.owners
    requires Tagged({s.alloc.owners[id]}, x) in EntryAt(s, x.prefix)
    ensures HoldsAlone(s, id, x)
  {
    var slot, rs := s.alloc.owners[id], EntryAt(s, x.prefix);
    ViewMember(rs, {slot}, x);
    forall other | other != id ensures x !in RoutesOf(s, other, x.prefix) {
      if x in RoutesOf(s, other, x.prefix) {
        var taken := s.alloc.owners[other];
        ViewMember(rs, {taken}, x);
        var t :| t in rs && HeldBy(t, {taken}) && t.route == x;
        StoredOnce(rs, t, Tagged({slot}, x));
      }
    }
  }

  lemma AloneIsTagged(s: Rib, id: Uuid, x: Route)
    requires RibInv(s) && id in s.alloc.owners
    ensures Tagged({s.alloc.owners[id]}, x) in EntryAt(s, x.prefix) <==> HoldsAlone(s, id, x)
  {
    var slot, rs := s.alloc.owners[id], EntryAt(s, x.prefix);
    if Tagged({slot}, x) in rs {
      TaggedIsAlone(s, id, x);
    }
    if HoldsAlone(s, id, x) {
      ViewMember(rs, {slot}, x);
      var t :| t in rs && HeldBy(t, {slot}) && t.route == x;
      assert t.holders <= s.alloc.owners.Values;
      hide RibInv, View;
      forall b | b in t.holders ensures b == slot {
        var other :| other in s.alloc.owners && s.alloc.owners[other] == b;
        ViewMember(rs, {b}, x);
        assert HeldBy(t, {b}) && x in RoutesOf(s, other, x.prefix);
      }
      assert t.holders == {slot};
    }
  }

  /** A removal changes the overall best route at the prefix exactly when that route is the
      withdrawing peer's and only the caller holds it, whatever its next hop and path. */
  lemma RemovalChangesBestIff(s: Rib, r: Route, id: Uuid)
    requires RibInv(s) && CanAcquire(s.alloc, id)
    ensures var best := OverallBest(s, r.prefix);
            OverallBest(RemoveRoute(s, r, id), r.prefix) != best <==>
              best.Some? && SameSource(best.value, r) && HoldsAlone(s, id, best.value)
  {
    var s', rs := RegisterRouter(s, id), EntryAt(s, r.prefix);
    RegisterFrame(s, id, id, r.prefix);
    AcquireKeeps(s.alloc, id);
    RemoveAfterRegister(s, r, id);
    var who := {s'.alloc.owners[id]};
    var kept := Survives(rs, who, r);
    assert EntryInv(rs);
    WithdrawnRoutes(rs, who, r);
    hide RemoveRoute, Withdrawn, AllRoutes, RoutesOf;
    var all := AllRoutes(rs);
    BestMember(all);
    if all == [] {
    } else {
      var b := Best(all).value;
      StoredInAll(rs, b);
      var t :| t in rs && t.route == b;
      assert b.prefix == r.prefix;
      AloneAfterRegister(s, id, b);
      AloneIsTagged(s', id, b);
      if kept(b) {
        BestSurvives(all, kept);
      } else {
        BestMember(Filter(all, kept));
        if Best(Filter(all, kept)) == Some(b) {
          FilterMember(all, kept, b);
        }
      }
    }
  }

  lemma AloneAfterRegister(s: Rib, id: Uuid, x: Route)
    requires RibInv(s) && CanAcquire(s.alloc, id)
    ensures HoldsAlone(RegisterRouter(s, id), id, x) <==> HoldsAlone(s, id, x)
  {
    hide RoutesOf;
    forall other ensures RoutesOf(RegisterRouter(s, id), other, x.prefix) == RoutesOf(s, other, x.prefix) {
      RegisterFrame(s, id, other, x.prefix);
    }
  }

  /** A reported removal changes the overall best route exactly when the caller alone held the
      reported route; an unreported one, exactly when the caller alone held a best route of the
      same source that differs from the given one in next hop or path. */
  lemma RemoveReportIsRightIff(s: Rib, r: Route, id: Uuid)
    requires RibInv(s) && CanAcquire(s.alloc, id)
    ensures var best := OverallBest(s, r.prefix);
            var changed := OverallBest(RemoveRoute(s, r, id), r.prefix) != best;
            match RemoveReport(s, r)
            case Some(x) => x == r && (changed <==> HoldsAlone(s, id, r))
            case None =>
              changed <==> best.Some? && best.value != r && SameSource(best.value, r) && HoldsAlone(s, id, best.value)
  {
    RemovalChangesBestIff(s, r, id);
    BestMember(AllRoutes(EntryAt(s, r.prefix)));
  }

  /** The report does not depend on the caller: a router that holds nothing has another router's
      best route reported as removed, and the table stays as it is. */
  lemma ReportWithoutRemoval(r: Route, holder: Uuid, other: Uuid)
    requires holder != other
    ensures CanAcquire(FRESH.alloc, holder) && CanAcquire(InsertRoute(FRESH, r, holder).alloc, other)
    ensures var s := InsertRoute(FRESH, r, holder);
            RemoveReport(s, r) == Some(r) && RemoveRoute(s, r, other).table == s.table
  {
    assert FirstFree({}, 0) == 0 && FirstFree({0}, 1) == 1;
    var s := InsertRoute(FRESH, r, holder);
    var one := Tagged({0}, r);
    assert Inserted([], {0}, r) == [one];
    assert s.table == map[r.prefix := [one]];
    assert AllRoutes([one]) == [r] && [one][1..] == [];
    assert Best([r]) == Some(r) by {
      assert [r][..0] == [];
    }
    assert {0} - {1} == {0} && {0} != {1};
    assert Withdrawn([one], {1}, r) == [one];
  }

  /** A change need not be reported: the withdrawal of the only route, expanded with an empty next
      hop as all withdrawals are, empties the table and is not reported. */
  lemma RemovalWithoutReport(r: Route, id: Uuid)
    requires r.nextHop != ""
    ensures CanAcquire(FRESH.alloc, id) && CanAcquire(InsertRoute(FRESH, r, id).alloc, id)
    ensures var s, w := InsertRoute(FRESH, r, id), r.(nextHop := "");
            && RemoveReport(s, w) == None
            && OverallBest(s, r.prefix) == Some(r) && OverallBest(RemoveRoute(s, w, id), r.prefix) == None
            && RemoveRoute(s, w, id).table == map[]
  {
    assert FirstFree({}, 0) == 0;
    var s, w := InsertRoute(FRESH, r, id), r.(nextHop := "");
    var one := Tagged({0}, r);
    assert Inserted([], {0}, r) == [one];
    assert s.table == map[r.prefix := [one]];
    assert AllRoutes([one]) == [r] && [one][1..] == [];
    assert Best([r]) == Some(r) by {
      assert [r][..0] == [];
    }
    assert Withdrawn([one], {0}, w) == [];
    assert s.table - {r.prefix} == map[];
  }

  /** Undo does fail: a second route from the same peer takes the first one with it. */
  lemma SecondRouteTakesFirst(first: Route, second: Route, id: Uuid)
    requires SameSource(first, second)
    ensures CanAcquire(FRESH.alloc, id) && CanAcquire(InsertRoute(FRESH, first, id).alloc, id)
    ensures CanAcquire(InsertRoute(InsertRoute(FRESH, first, id), second, id).alloc, id)
    ensures var s := InsertRoute(FRESH, first, id);
            var undone := RemoveRoute(InsertRoute(s, second, id), second, id);
            first in RoutesOf(s, id, first.prefix) && undone.table == map[] && undone != s
  {
    assert FirstFree({}, 0) == 0;
    var s := InsertRoute(FRESH, first, id);
    var a, b := Tagged({0}, first), Tagged({0}, second);
    assert [a][1..] == [];
    assert s.table == map[first.prefix := [a]];
    assert View([a], {0}) == [first];
    var rs := Inserted([a], {0}, second);
    if first == second {
      assert {0} + {0} == {0};
      assert rs == [a];
    } else {
      assert Inserted([], {0}, second) == [b];
      assert rs == [a, b];
      assert [a, b][1..] == [b] && [b][1..] == [];
      assert Withdrawn([b], {0}, second) == [];
    }
    assert WithdrawOne(rs[0], {0}, second) == [];
    assert Withdrawn(rs, {0}, second) == [];
    assert s.table[first.prefix := rs] - {first.prefix} == map[];
  }
}
