/** Route counters of the shared table, counted twice: by router and by mask
    (src/components/bgp/bgp_rib.rs, src/utils/router_mask.rs). */
module RibCounts {
  import opened RouterMaskMaps
  import opened IpNetworks
  import opened Routes
  import opened RibEntries
  import opened Ribs

  // ---- sums over finite sets ----

  ghost function SumOver<T(!new)>(s: set<T>, f: T -> nat): nat {
    if s == {} then 0
    else
      var x :| x in s;
      f(x) + SumOver(s - {x}, f)
  }

  lemma {:induction false} SumRemove<T(!new)>(s: set<T>, f: T -> nat, x: T)
    requires x in s
    ensures SumOver(s, f) == f(x) + SumOver(s - {x}, f)
    decreases |s|
  {
    var y :| y in s && SumOver(s, f) == f(y) + SumOver(s - {y}, f);
    if y != x {
      SumRemove(s - {y}, f, x);
      SumRemove(s - {x}, f, y);
      assert s - {x} - {y} == s - {y} - {x};
    }
  }

  lemma {:induction false} SumAdd<T(!new)>(s: set<T>, f: T -> nat, g: T -> nat, h: T -> nat)
    requires forall x <- s :: h(x) == f(x) + g(x)
    ensures SumOver(s, h) == SumOver(s, f) + SumOver(s, g)
    decreases |s|
  {
    if s != {} {
      var x :| x in s;
      SumRemove(s, f, x);
      SumRemove(s, g, x);
      SumRemove(s, h, x);
      SumAdd(s - {x}, f, g, h);
    }
  }

  lemma {:induction false} SumBounds<T(!new)>(s: set<T>, f: T -> nat, g: T -> nat)
    requires forall x <- s :: f(x) <= g(x) <= 64 * f(x)
    ensures SumOver(s, f) <= SumOver(s, g) <= 64 * SumOver(s, f)
    decreases |s|
  {
    if s != {} {
      var x :| x in s;
      SumRemove(s, f, x);
      SumRemove(s, g, x);
      SumBounds(s - {x}, f, g);
    }
  }

  lemma {:induction false} SumSame<T(!new)>(s: set<T>, f: T -> nat, g: T -> nat)
    requires forall x <- s :: f(x) == g(x)
    ensures SumOver(s, f) == SumOver(s, g)
    decreases |s|
  {
    if s != {} {
      var x :| x in s;
      SumRemove(s, f, x);
      SumRemove(s, g, x);
      SumSame(s - {x}, f, g);
    }
  }

  lemma {:induction false} SumZero<T(!new)>(s: set<T>, f: T -> nat)
    requires forall x <- s :: f(x) == 0
    ensures SumOver(s, f) == 0
    decreases |s|
  {
    if s != {} {
      var x :| x in s;
      SumRemove(s, f, x);
      SumZero(s - {x}, f);
    }
  }

  // ---- one entry ----

  /** The population counts of an entry's masks, added up. */
  function MaskBits(rs: seq<Tagged>): nat {
    if rs == [] then 0 else |rs[0].holders| + MaskBits(rs[1..])
  }

  function Holds(owners: map<Uuid, nat>, holders: set<nat>): Uuid -> nat {
    id => if id in owners && owners[id] in holders then 1 else 0
  }

  function Sees(owners: map<Uuid, nat>, rs: seq<Tagged>): Uuid -> nat {
    id => if id in owners then |View(rs, {owners[id]})| else 0
  }

  /** Counting the routers that hold a route counts the bits of its mask. */
  lemma {:induction false} HoldersCounted(ids: set<Uuid>, owners: map<Uuid, nat>, holders: set<nat>)
    requires ids <= owners.Keys
    requires forall i, j :: i in ids && j in ids && owners[i] == owners[j] ==> i == j
    requires forall b <- holders :: exists i <- ids :: owners[i] == b
    ensures SumOver(ids, Holds(owners, holders)) == |holders|
    decreases |ids|
  {
    hide SumOver;
    if ids == {} {
      assert holders == {};
      SumZero(ids, Holds(owners, holders));
    } else {
      var id :| id in ids;
      var b := owners[id];
      SumRemove(ids, Holds(owners, holders), id);
      SumSame(ids - {id}, Holds(owners, holders), Holds(owners, holders - {b}));
      HoldersCounted(ids - {id}, owners, holders - {b});
    }
  }

  lemma {:induction false} EntryCountedTwice(a: Allocator, rs: seq<Tagged>)
    requires AllocInv(a) && forall t <- rs :: t.holders <= a.taken
    ensures SumOver(a.owners.Keys, Sees(a.owners, rs)) == MaskBits(rs)
  {
    hide SumOver;
    var ids := a.owners.Keys;
    if rs == [] {
      SumZero(ids, Sees(a.owners, rs));
    } else {
      EntryCountedTwice(a, rs[1..]);
      assert rs[0].holders <= a.taken;
      forall b <- rs[0].holders ensures exists i <- ids :: a.owners[i] == b {
        assert b in a.owners.Values;
      }
      HoldersCounted(ids, a.owners, rs[0].holders);
      SumAdd(ids, Holds(a.owners, rs[0].holders), Sees(a.owners, rs[1..]), Sees(a.owners, rs));
    }
  }

  lemma {:induction false} MaskBitsBounds(a: Allocator, rs: seq<Tagged>)
    requires AllocInv(a) && forall t <- rs :: t.holders <= a.taken && t.holders != {}
    ensures |rs| <= MaskBits(rs) <= 64 * |rs|
  {
    if rs != [] {
      MaskBitsBounds(a, rs[1..]);
      assert rs[0].holders <= a.taken && rs[0].holders != {};
      assert |rs[0].holders| != 0;
      SizeBound(rs[0].holders, 64);
    }
  }

  // ---- the table ----

  function SeenAt(s: Rib, id: Uuid): IpNetwork -> nat {
    (p: IpNetwork) => |RoutesOf(s, id, p)|
  }

  function BitsAt(s: Rib): IpNetwork -> nat {
    (p: IpNetwork) => MaskBits(EntryAt(s, p))
  }

  function StoredAt(s: Rib): IpNetwork -> nat {
    (p: IpNetwork) => |EntryAt(s, p)|
  }

  /** The first counter of `get_routes_count_with_mask`. */
  ghost function RouteCount(s: Rib, id: Uuid): nat {
    SumOver(s.table.Keys, SeenAt(s, id))
  }

  /** `get_total_route_count`: routes stored once count once, however many routers hold them. */
  ghost function TotalRouteCount(s: Rib): nat {
    SumOver(s.table.Keys, StoredAt(s))
  }

  ghost function CountOver(s: Rib, keys: set<IpNetwork>): Uuid -> nat {
    id => SumOver(keys, SeenAt(s, id))
  }

  lemma CountOverStep(s: Rib, keys: set<IpNetwork>, p: IpNetwork)
    requires p in keys
    ensures forall id <- s.alloc.owners ::
              CountOver(s, keys)(id) == Sees(s.alloc.owners, EntryAt(s, p))(id) + CountOver(s, keys - {p})(id)
  {
    forall id <- s.alloc.owners
      ensures CountOver(s, keys)(id) == Sees(s.alloc.owners, EntryAt(s, p))(id) + CountOver(s, keys - {p})(id)
    {
      SumRemove(keys, SeenAt(s, id), p);
    }
  }

  /** Taking one more prefix into account adds the bits of its masks. */
  lemma SumOneMore(s: Rib, keys: set<IpNetwork>, p: IpNetwork)
    requires RibInv(s) && p in keys && keys <= s.table.Keys
    ensures SumOver(s.alloc.owners.Keys, CountOver(s, keys))
         == MaskBits(EntryAt(s, p)) + SumOver(s.alloc.owners.Keys, CountOver(s, keys - {p}))
  {
    EntryCountedTwice(s.alloc, EntryAt(s, p));
    hide CountOver, Sees, RibInv, EntryAt, SumOver, MaskBits;
    CountOverStep(s, keys, p);
    SumAdd(s.alloc.owners.Keys, Sees(s.alloc.owners, EntryAt(s, p)), CountOver(s, keys - {p}), CountOver(s, keys));
  }

  lemma {:induction false} CountedTwiceOver(s: Rib, keys: set<IpNetwork>)
    requires RibInv(s) && keys <= s.table.Keys
    ensures SumOver(s.alloc.owners.Keys, CountOver(s, keys)) == SumOver(keys, BitsAt(s))
    decreases |keys|
  {
    hide RibInv, EntryAt, MaskBits;
    if keys == {} {
      SumZero(s.alloc.owners.Keys, CountOver(s, keys));
    } else {
      var p :| p in keys;
      SumOneMore(s, keys, p);
      SumRemove(keys, BitsAt(s), p);
      CountedTwiceOver(s, keys - {p});
    }
  }

  /** Double counting: the routers' route counts add up to the population counts of all stored
      masks, which lie between the number of stored routes and 64 times it. */
  lemma CountedTwice(s: Rib)
    requires RibInv(s)
    ensures SumOver(s.alloc.owners.Keys, CountOver(s, s.table.Keys)) == SumOver(s.table.Keys, BitsAt(s))
    ensures TotalRouteCount(s) <= SumOver(s.table.Keys, BitsAt(s)) <= 64 * TotalRouteCount(s)
  {
    CountedTwiceOver(s, s.table.Keys);
    forall p <- s.table.Keys
      ensures StoredAt(s)(p) <= BitsAt(s)(p) <= 64 * StoredAt(s)(p)
    {
      EveryHolderSet(s.table[p]);
      MaskBitsBounds(s.alloc, s.table[p]);
    }
    SumBounds(s.table.Keys, StoredAt(s), BitsAt(s));
  }

  lemma {:induction false} EveryHolderSet(rs: seq<Tagged>)
    requires EntryInv(rs)
    ensures forall t <- rs :: t.holders != {}
  {
    if rs != [] {
      EveryHolderSet(rs[1..]);
      assert forall t :: t in rs <==> t == rs[0] || t in rs[1..];
    }
  }

  /** The prefixes of a family at which a router holds a route. */
  function PrefixesOf(s: Rib, id: Uuid, family: Family): set<IpNetwork> {
    set p | p in s.table.Keys && RoutesOf(s, id, p) != [] && p.family == family
  }

  /** The two prefix counters add up to the router's distinct prefixes. */
  lemma FamiliesPartition(s: Rib, id: Uuid)
    ensures |PrefixesOf(s, id, V4)| + |PrefixesOf(s, id, V6)|
         == |set p | p in s.table.Keys && RoutesOf(s, id, p) != []|
  {
    var v4, v6 := PrefixesOf(s, id, V4), PrefixesOf(s, id, V6);
    assert (set p | p in s.table.Keys && RoutesOf(s, id, p) != []) == v4 + v6;
    assert v4 !! v6;
  }

  /** 1 at a prefix of the family where the router holds a route, else 0. */
  function HasAt(s: Rib, id: Uuid, family: Family): IpNetwork -> nat {
    (p: IpNetwork) => if RoutesOf(s, id, p) != [] && p.family == family then 1 else 0
  }

  /** The family counters of `get_routes_count_with_mask`. */
  ghost function PrefixCount(s: Rib, id: Uuid, family: Family): nat {
    SumOver(s.table.Keys, HasAt(s, id, family))
  }

  lemma OneMore<T>(found: set<T>, keys: set<T>, p: T)
    requires p in keys
    ensures |found * keys| == |found * (keys - {p})| + if p in found then 1 else 0
  {
    assert found * keys == if p in found then found * (keys - {p}) + {p} else found * (keys - {p});
  }

  lemma {:induction false} PrefixCountOver(s: Rib, id: Uuid, family: Family, keys: set<IpNetwork>)
    requires keys <= s.table.Keys
    ensures SumOver(keys, HasAt(s, id, family)) == |PrefixesOf(s, id, family) * keys|
    decreases |keys|
  {
    hide RoutesOf, SumOver;
    if keys == {} {
      SumZero(keys, HasAt(s, id, family));
    } else {
      var p :| p in keys;
      var found := PrefixesOf(s, id, family);
      SumRemove(keys, HasAt(s, id, family), p);
      PrefixCountOver(s, id, family, keys - {p});
      assert HasAt(s, id, family)(p) == if p in found then 1 else 0;
      hide PrefixesOf;
      OneMore(found, keys, p);
    }
  }

  /** A family counter is the number of distinct prefixes of that family the router holds. */
  lemma PrefixCountIsSize(s: Rib, id: Uuid, family: Family)
    ensures PrefixCount(s, id, family) == |PrefixesOf(s, id, family)|
  {
    PrefixCountOver(s, id, family, s.table.Keys);
    assert PrefixesOf(s, id, family) * s.table.Keys == PrefixesOf(s, id, family);
  }

  // ---- the counters as sizes of sets ----

  ghost predicate Distinct(rs: seq<Route>) {
    forall i, j :: 0 <= i < j < |rs| ==> rs[i] != rs[j]
  }

  lemma {:induction false} DistinctSize(rs: seq<Route>)
    requires Distinct(rs)
    ensures |set x | x in rs| == |rs|
  {
    if rs != [] {
      DistinctSize(rs[1..]);
      assert (set x | x in rs) == (set x | x in rs[1..]) + {rs[0]};
    }
  }

  lemma {:induction false} EntryIsDistinct(rs: seq<Tagged>, slot: nat)
    requires EntryInv(rs)
    ensures Distinct(AllRoutes(rs)) && |AllRoutes(rs)| == |rs| && Distinct(View(rs, {slot}))
  {
    if rs != [] {
      EntryIsDistinct(rs[1..], slot);
      StoredInAll(rs[1..], rs[0].route);
      ViewMember(rs[1..], {slot}, rs[0].route);
    }
  }

  /** Lists of different routes, each at its own prefix, have as many routes in all as their lengths
      add up to. */
  lemma {:induction false} SumIsSize(keys: set<IpNetwork>, lists: IpNetwork -> seq<Route>, lengths: IpNetwork -> nat)
    requires forall p <- keys :: Distinct(lists(p)) && lengths(p) == |lists(p)| && forall x <- lists(p) :: x.prefix == p
    ensures SumOver(keys, lengths) == |set p, x | p in keys && x in lists(p) :: x|
    decreases |keys|
  {
    var all := set p, x | p in keys && x in lists(p) :: x;
    if keys == {} {
      SumZero(keys, lengths);
      assert all == {};
    } else {
      var p :| p in keys;
      SumRemove(keys, lengths, p);
      SumIsSize(keys - {p}, lists, lengths);
      DistinctSize(lists(p));
      var here := set x | x in lists(p);
      var others := set q, x | q in keys - {p} && x in lists(q) :: x;
      assert all == here + others && here !! others;
    }
  }

  /** What is stored at a prefix for anybody. */
  function RoutesAt(s: Rib, p: IpNetwork): seq<Route> {
    AllRoutes(EntryAt(s, p))
  }

  function Lists(s: Rib): IpNetwork -> seq<Route> {
    (p: IpNetwork) => RoutesAt(s, p)
  }

  function ListsOf(s: Rib, id: Uuid): IpNetwork -> seq<Route> {
    (p: IpNetwork) => RoutesOf(s, id, p)
  }

  lemma ListIs(s: Rib, p: IpNetwork)
    requires RibInv(s) && p in s.table.Keys
    ensures Distinct(Lists(s)(p)) && StoredAt(s)(p) == |Lists(s)(p)| && forall x <- Lists(s)(p) :: x.prefix == p
  {
    EntryIsDistinct(s.table[p], 0);
    forall x | x in AllRoutes(s.table[p]) ensures x.prefix == p {
      StoredInAll(s.table[p], x);
    }
  }

  lemma ListOfIs(s: Rib, id: Uuid, p: IpNetwork)
    requires RibInv(s) && p in s.table.Keys
    ensures Distinct(ListsOf(s, id)(p)) && SeenAt(s, id)(p) == |ListsOf(s, id)(p)|
    ensures forall x <- ListsOf(s, id)(p) :: x.prefix == p
  {
    if id in s.alloc.owners {
      EntryIsDistinct(s.table[p], s.alloc.owners[id]);
      forall x | x in RoutesOf(s, id, p) ensures x.prefix == p {
        ViewMember(s.table[p], {s.alloc.owners[id]}, x);
      }
    }
  }

  /** The total is the number of different routes stored, whoever holds them. */
  lemma TotalIsDistinctRoutes(s: Rib)
    requires RibInv(s)
    ensures TotalRouteCount(s) == |set p, x | p in s.table.Keys && x in RoutesAt(s, p) :: x|
  {
    hide RibInv, RoutesAt, Distinct, SumOver;
    forall p | p in s.table.Keys
      ensures Distinct(Lists(s)(p)) && StoredAt(s)(p) == |Lists(s)(p)|
      ensures forall x <- Lists(s)(p) :: x.prefix == p
    {
      ListIs(s, p);
    }
    SumIsSize(s.table.Keys, Lists(s), StoredAt(s));
    assert (set p, x | p in s.table.Keys && x in Lists(s)(p) :: x)
        == (set p, x | p in s.table.Keys && x in RoutesAt(s, p) :: x);
  }

  /** A router's count is the number of routes it holds. */
  lemma RouteCountIsSize(s: Rib, id: Uuid)
    requires RibInv(s)
    ensures RouteCount(s, id) == |set p, x | p in s.table.Keys && x in RoutesOf(s, id, p) :: x|
  {
    hide RibInv, RoutesOf, Distinct, SumOver;
    forall p | p in s.table.Keys
      ensures Distinct(ListsOf(s, id)(p)) && SeenAt(s, id)(p) == |ListsOf(s, id)(p)|
      ensures forall x <- ListsOf(s, id)(p) :: x.prefix == p
    {
      ListOfIs(s, id, p);
    }
    SumIsSize(s.table.Keys, ListsOf(s, id), SeenAt(s, id));
    assert (set p, x | p in s.table.Keys && x in ListsOf(s, id)(p) :: x)
        == (set p, x | p in s.table.Keys && x in RoutesOf(s, id, p) :: x);
  }
}
