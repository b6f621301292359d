/** `BgpRib` (src/components/bgp/bgp_rib.rs): the shared table updated in place. */
module BgpRibs {
  import opened Wrappers
  import opened RouterMasks
  import opened RouterMaskMaps
  import opened IpNetworks
  import opened Routes
  import opened RibEntries
  import Ribs
  import RibCounts

  /** The prefix table maps each canonical prefix to its own entry object. */
  class BgpRib {
    var routerMaskMap: RouterMaskMap
    var treebitmap: map<IpNetwork, BgpRibEntry>

    ghost function Repr(): set<object>
      reads this
    {
      {this, routerMaskMap} + treebitmap.Values
    }

    ghost function Table(): map<IpNetwork, seq<Tagged>>
      reads this, treebitmap.Values
    {
      map p | p in treebitmap :: treebitmap[p].Model()
    }

    ghost function State(): Ribs.Rib
      reads Repr()
    {
      Ribs.Rib(routerMaskMap.State(), Table())
    }

    ghost predicate Unshared()
      reads this
    {
      forall p, q :: p in treebitmap && q in treebitmap && treebitmap[p] == treebitmap[q] ==> p == q
    }

    ghost predicate Valid()
      reads Repr()
    {
      routerMaskMap.Valid() && Unshared() && Ribs.RibInv(State())
    }

    constructor ()
      ensures Valid() && fresh(Repr()) && State() == Ribs.FRESH
    {
      routerMaskMap := new RouterMaskMap();
      treebitmap := map[];
    }

    lemma TableAt(p: IpNetwork)
      ensures p in Table() <==> p in treebitmap
      ensures p in treebitmap ==> Table()[p] == treebitmap[p].Model()
    {
    }

    lemma TableIs(t: map<IpNetwork, seq<Tagged>>)
      ensures Table() == t
         <==> t.Keys == treebitmap.Keys && forall p :: p in treebitmap ==> t[p] == treebitmap[p].Model()
    {
    }

    /** Registering a 65th router panics in the allocator, hence `CanAcquire` here and below. */
    method RegisterRouter(id: Uuid)
      requires Valid() && CanAcquire(State().alloc, id)
      modifies routerMaskMap
      ensures Valid() && Repr() == old(Repr())
      ensures State() == Ribs.RegisterRouter(old(State()), id)
    {
      hide Bits, AllocInv, Ribs.RibInv, Acquire, CanAcquire;
      Ribs.RegisterKeepsInv(State(), id);
      var mask := routerMaskMap.Get(id);
    }

    /** The branch of `insert_route` for a prefix that has an entry. */
    method Merge(mask: RouterMask, route: Route)
      requires Unshared() && route.prefix in treebitmap
      modifies treebitmap[route.prefix]
      ensures Table() == old(Table())[route.prefix := Inserted(old(Table())[route.prefix], Bits(mask), route)]
    {
      hide Bits, Inserted, Tags, Table;
      ghost var t := Table();
      TableIs(t);
      treebitmap[route.prefix].Insert(mask, route);
      TableIs(t[route.prefix := treebitmap[route.prefix].Model()]);
    }

    /** The branch of `insert_route` for a prefix without one. */
    method AddEntry(mask: RouterMask, route: Route)
      requires Unshared() && route.prefix !in treebitmap
      modifies this`treebitmap
      ensures Unshared() && fresh(treebitmap.Values - old(treebitmap.Values))
      ensures Table() == old(Table())[route.prefix := Inserted([], Bits(mask), route)]
    {
      hide Bits, Inserted, Tags, Table;
      ghost var t := Table();
      TableIs(t);
      var entry := new BgpRibEntry();
      entry.Insert(mask, route);
      ghost var rs := entry.Model();
      treebitmap := treebitmap[route.prefix := entry];
      assert entry.Model() == rs;
      TableIs(t[route.prefix := rs]);
    }

    method InsertRoute(route: Route, id: Uuid) returns (report: Option<Route>)
      requires Valid() && CanAcquire(State().alloc, id)
      modifies Repr()
      ensures Valid() && fresh(Repr() - old(Repr()))
      ensures State() == Ribs.InsertRoute(old(State()), route, id)
      ensures report == Ribs.InsertReport(old(State()), route)
    {
      hide Bits, AllocInv, Ribs.RibInv, Acquire, CanAcquire, Inserted, AllRoutes, Best, Table;
      ghost var before := State();
      Ribs.InsertKeepsInv(before, route, id);
      TableAt(route.prefix);
      var found := routerMaskMap.Get(id);
      var mask := found.value;
      if route.prefix in treebitmap {
        var all := treebitmap[route.prefix].GetAll() + [route];
        report := if Best(all) == Some(route) then Some(route) else None;
        Merge(mask, route);
      } else {
        report := Some(route);
        AddEntry(mask, route);
      }
    }

    method RemoveRoute(route: Route, id: Uuid) returns (report: Option<Route>)
      requires Valid() && CanAcquire(State().alloc, id)
      modifies Repr()
      ensures Valid() && Repr() <= old(Repr())
      ensures State() == Ribs.RemoveRoute(old(State()), route, id)
      ensures report == Ribs.RemoveReport(old(State()), route)
    {
      hide Bits, AllocInv, Ribs.RibInv, Acquire, CanAcquire, Withdrawn, AllRoutes, Best;
      ghost var before := State();
      Ribs.RemoveKeepsInv(before, route, id);
      var found := routerMaskMap.Get(id);
      var mask := found.value;
      report := None;
      if route.prefix in treebitmap {
        var previous := Best(treebitmap[route.prefix].GetAll());
        WithdrawFrom(mask, route);
        if previous == Some(route) {
          report := previous;
        }
      }
    }

    /** The table update of `remove_route`: the entry goes when its last route does. */
    method WithdrawFrom(mask: RouterMask, route: Route)
      requires Unshared() && route.prefix in treebitmap
      modifies this`treebitmap, treebitmap[route.prefix]
      ensures Unshared() && treebitmap.Values <= old(treebitmap.Values)
      ensures var rs := Withdrawn(old(Table())[route.prefix], Bits(mask), route);
              Table() == if rs == [] then old(Table()) - {route.prefix} else old(Table())[route.prefix := rs]
    {
      hide Bits, Withdrawn, Tags, Table;
      ghost var t := Table();
      TableIs(t);
      var entry := treebitmap[route.prefix];
      entry.Withdraw(mask, route);
      TableIs(t[route.prefix := entry.Model()]);
      if entry.Len() == 0 {
        treebitmap := treebitmap - {route.prefix};
        TableIs(t - {route.prefix});
      }
    }

    /** `clear` also forgets which routers are registered. */
    method Clear()
      modifies this
      ensures Valid() && State() == Ribs.FRESH
      ensures fresh(Repr() - {this})
    {
      treebitmap := map[];
      routerMaskMap := new RouterMaskMap();
    }

    method GetRoutesForRouter(address: IpAddr, id: Uuid) returns (routes: seq<Route>)
      requires Valid()
      ensures routes == Ribs.RoutesForRouter(State(), address, id)
    {
      hide Bits, AllocInv, Ribs.RibInv, View;
      var mask := routerMaskMap.TryGet(id);
      assert State().table.Keys == treebitmap.Keys;
      match LongestMatch(treebitmap.Keys, address) {
        case None =>
          routes := [];
        case Some(p) =>
          LongestMatchIsLongest(treebitmap.Keys, address);
          routes := treebitmap[p].GetWithMask(mask);
          NobodySees(treebitmap[p].Model());
      }
    }

    method GetTotalRouteCount() returns (total: nat)
      requires Valid()
      ensures total == RibCounts.TotalRouteCount(State())
    {
      hide Bits, AllocInv, Ribs.RibInv, RibCounts.SumOver;
      ghost var stored: IpNetwork -> nat := RibCounts.StoredAt(State());
      total := 0;
      assert State().table.Keys == treebitmap.Keys;
      var rest: set<IpNetwork> := treebitmap.Keys;
      while rest != {}
        invariant rest <= treebitmap.Keys
        invariant total + RibCounts.SumOver<IpNetwork>(rest, stored)
               == RibCounts.SumOver<IpNetwork>(treebitmap.Keys, stored)
      {
        var p :| p in rest;
        RibCounts.SumRemove<IpNetwork>(rest, stored, p);
        total := total + treebitmap[p].Len();
        rest := rest - {p};
      }
      RibCounts.SumZero<IpNetwork>(rest, stored);
    }

    /** The length of one entry's list for one router. */
    method EntryLen(p: IpNetwork, mask: RouterMask, ghost id: Uuid) returns (n: nat)
      requires p in treebitmap && Bits(mask) == routerMaskMap.SlotSet(id)
      ensures n == |Ribs.RoutesOf(State(), id, p)|
    {
      hide Bits, View;
      NobodySees(treebitmap[p].Model());
      n := |treebitmap[p].GetWithMask(mask)|;
    }

    /** The loop of `get_routes_count_with_mask`. */
    method CountKeys(keys: set<IpNetwork>, mask: RouterMask, ghost id: Uuid, ghost s: Ribs.Rib)
      returns (routes: nat, ipv4: nat, ipv6: nat)
      requires keys <= treebitmap.Keys && Bits(mask) == routerMaskMap.SlotSet(id) && s == State()
      ensures routes == RibCounts.SumOver(keys, RibCounts.SeenAt(s, id))
      ensures ipv4 == RibCounts.SumOver(keys, RibCounts.HasAt(s, id, V4))
      ensures ipv6 == RibCounts.SumOver(keys, RibCounts.HasAt(s, id, V6))
    {
      hide RibCounts.SumOver, Table, Ribs.RoutesOf;
      ghost var seen: IpNetwork -> nat := RibCounts.SeenAt(s, id);
      ghost var has4: IpNetwork -> nat := RibCounts.HasAt(s, id, V4);
      ghost var has6: IpNetwork -> nat := RibCounts.HasAt(s, id, V6);
      routes, ipv4, ipv6 := 0, 0, 0;
      var rest := keys;
      while rest != {}
        invariant rest <= keys
        invariant routes + RibCounts.SumOver(rest, seen) == RibCounts.SumOver(keys, seen)
        invariant ipv4 + RibCounts.SumOver(rest, has4) == RibCounts.SumOver(keys, has4)
        invariant ipv6 + RibCounts.SumOver(rest, has6) == RibCounts.SumOver(keys, has6)
      {
        var p: IpNetwork :| p in rest;
        RibCounts.SumRemove(rest, seen, p);
        RibCounts.SumRemove(rest, has4, p);
        RibCounts.SumRemove(rest, has6, p);
        var entryLen := EntryLen(p, mask, id);
        routes := routes + entryLen;
        if entryLen > 0 {
          if p.family == V4 {
            ipv4 := ipv4 + 1;
          }
          if p.family == V6 {
            ipv6 := ipv6 + 1;
          }
        }
        rest := rest - {p};
      }
      RibCounts.SumZero(rest, seen);
      RibCounts.SumZero(rest, has4);
      RibCounts.SumZero(rest, has6);
    }

    /** The router's routes, and the IPv4 and IPv6 prefixes at which it has any. */
    method GetRoutesCountWithMask(id: Uuid) returns (routes: nat, ipv4: nat, ipv6: nat)
      requires Valid()
      ensures routes == RibCounts.RouteCount(State(), id)
      ensures ipv4 == RibCounts.PrefixCount(State(), id, V4)
      ensures ipv6 == RibCounts.PrefixCount(State(), id, V6)
    {
      hide Bits, AllocInv, Ribs.RibInv, Ribs.RoutesOf, RibCounts.SumOver;
      var mask := routerMaskMap.TryGet(id);
      assert State().table.Keys == treebitmap.Keys;
      routes, ipv4, ipv6 := CountKeys(treebitmap.Keys, mask, id, State());
    }

    method GetBestRouteForRouter(address: IpAddr, id: Uuid) returns (best: Option<Route>)
      requires Valid()
      ensures best == Ribs.BestRouteForRouter(State(), address, id)
    {
      var routes := GetRoutesForRouter(address, id);
      best := Best(routes);
    }
  }

  lemma {:induction false} NobodySees(rs: seq<Tagged>)
    ensures View(rs, {}) == []
  {
    if rs != [] {
      NobodySees(rs[1..]);
    }
  }
}
