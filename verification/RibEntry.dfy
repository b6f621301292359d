/** The routes stored at one prefix, each tagged with the routers that hold it
    (src/components/bgp/bgp_rib_entry.rs). */
module RibEntries {
  import opened Wrappers
  import opened RouterMasks
  import opened Routes

  /** A stored route and the positions set in its mask. */
  datatype Tagged = Tagged(holders: set<nat>, route: Route)

  /** `insert`: the first equal route gains the holders, otherwise a new one is pushed. */
  function Inserted(rs: seq<Tagged>, who: set<nat>, r: Route): seq<Tagged> {
    if rs == [] then [Tagged(who, r)]
    else if rs[0].route == r then [Tagged(rs[0].holders + who, r)] + rs[1..]
    else [rs[0]] + Inserted(rs[1..], who, r)
  }

  /** What `withdraw` leaves of one element: an equal mask drops it, others lose `who`. */
  function WithdrawOne(t: Tagged, who: set<nat>, r: Route): seq<Tagged> {
    if !SameSource(t.route, r) then [t]
    else if t.holders == who then []
    else [Tagged(t.holders - who, t.route)]
  }

  function Withdrawn(rs: seq<Tagged>, who: set<nat>, r: Route): seq<Tagged> {
    if rs == [] then [] else WithdrawOne(rs[0], who, r) + Withdrawn(rs[1..], who, r)
  }

  predicate HeldBy(t: Tagged, who: set<nat>) {
    who != {} && who <= t.holders
  }

  /** `get_with_mask`: the routes that all of `who` hold, in stored order. */
  function View(rs: seq<Tagged>, who: set<nat>): seq<Route> {
    if rs == [] then []
    else (if HeldBy(rs[0], who) then [rs[0].route] else []) + View(rs[1..], who)
  }

  /** `get_all`. */
  function AllRoutes(rs: seq<Tagged>): seq<Route> {
    if rs == [] then [] else [rs[0].route] + AllRoutes(rs[1..])
  }

  predicate Stored(rs: seq<Tagged>, r: Route) {
    exists t <- rs :: t.route == r
  }

  /** Every route has a holder, and no route is stored twice. */
  ghost predicate EntryInv(rs: seq<Tagged>) {
    rs == [] || (rs[0].holders != {} && !Stored(rs[1..], rs[0].route) && EntryInv(rs[1..]))
  }

  function NotFrom(r: Route): Route -> bool {
    x => !SameSource(x, r)
  }

  // ---- one router's view ----

  lemma {:induction false} ViewMember(rs: seq<Tagged>, who: set<nat>, x: Route)
    ensures x in View(rs, who) <==> exists t <- rs :: HeldBy(t, who) && t.route == x
  {
    if rs != [] {
      ViewMember(rs[1..], who, x);
      assert forall t :: t in rs <==> t == rs[0] || t in rs[1..];
    }
  }

  /** Inserting for some routers leaves the list of any other router literally unchanged. */
  lemma {:induction false} InsertFrame(rs: seq<Tagged>, who: set<nat>, r: Route, s: nat)
    requires s !in who
    ensures View(Inserted(rs, who, r), {s}) == View(rs, {s})
  {
    if rs != [] && rs[0].route != r {
      InsertFrame(rs[1..], who, r, s);
    }
  }

  /** Inserting for router `s` adds exactly that route to its list. */
  lemma {:induction false} InsertOwn(rs: seq<Tagged>, s: nat, r: Route, x: Route)
    ensures x in View(Inserted(rs, {s}, r), {s}) <==> x == r || x in View(rs, {s})
  {
    if rs != [] && rs[0].route != r {
      InsertOwn(rs[1..], s, r, x);
    }
  }

  /** Withdrawing for some routers leaves the list of any other router literally unchanged. */
  lemma {:induction false} WithdrawFrame(rs: seq<Tagged>, who: set<nat>, r: Route, s: nat)
    requires s !in who
    ensures View(Withdrawn(rs, who, r), {s}) == View(rs, {s})
  {
    if rs != [] {
      WithdrawFrame(rs[1..], who, r, s);
      ViewAppend(WithdrawOne(rs[0], who, r), Withdrawn(rs[1..], who, r), {s});
    }
  }

  /** Withdrawing for router `s` removes exactly its routes from that peer, keeping the order. */
  lemma {:induction false} WithdrawOwn(rs: seq<Tagged>, s: nat, r: Route)
    ensures View(Withdrawn(rs, {s}, r), {s}) == Filter(View(rs, {s}), NotFrom(r))
  {
    if rs != [] {
      WithdrawOwn(rs[1..], s, r);
      ViewAppend(WithdrawOne(rs[0], {s}, r), Withdrawn(rs[1..], {s}, r), {s});
      var head := if HeldBy(rs[0], {s}) then [rs[0].route] else [];
      FilterAppend(head, View(rs[1..], {s}), NotFrom(r));
    }
  }

  lemma {:induction false} ViewAppend(a: seq<Tagged>, b: seq<Tagged>, who: set<nat>)
    ensures View(a + b, who) == View(a, who) + View(b, who)
  {
    hide View, HeldBy;
    if a == [] {
      assert a + b == b;
      ViewHead([], who);
    } else {
      ViewAppend(a[1..], b, who);
      ViewHead(a, who);
      ViewHead(a + b, who);
      assert (a + b)[0] == a[0] && (a + b)[1..] == a[1..] + b;
      var head := if HeldBy(a[0], who) then [a[0].route] else [];
      assert head + (View(a[1..], who) + View(b, who)) == (head + View(a[1..], who)) + View(b, who);
    }
  }

  lemma ViewHead(rs: seq<Tagged>, who: set<nat>)
    ensures rs == [] ==> View(rs, who) == []
    ensures rs != [] ==> View(rs, who) == (if HeldBy(rs[0], who) then [rs[0].route] else []) + View(rs[1..], who)
  {
  }

  /** Some element has the route and is held by the router. */
  predicate HoldsRoute(rs: seq<Tagged>, s: nat, x: Route) {
    exists t <- rs :: s in t.holders && t.route == x
  }

  function HeldIn(rs: seq<Tagged>, s: nat): Route -> bool {
    x => HoldsRoute(rs, s, x)
  }

  /** One router's list is the list of all routes without those the router does not hold, order
      included. */
  lemma {:induction false} ViewInOrder(rs: seq<Tagged>, s: nat)
    requires EntryInv(rs)
    ensures View(rs, {s}) == Filter(AllRoutes(rs), HeldIn(rs, s))
  {
    if rs != [] {
      var head, rest := rs[0].route, AllRoutes(rs[1..]);
      ViewInOrder(rs[1..], s);
      forall x | x in rest ensures HeldIn(rs[1..], s)(x) == HeldIn(rs, s)(x) {
        StoredInAll(rs[1..], x);
        assert forall t :: t in rs <==> t == rs[0] || t in rs[1..];
      }
      FilterSame(rest, HeldIn(rs[1..], s), HeldIn(rs, s));
      assert HeldIn(rs, s)(head) <==> s in rs[0].holders;
      assert ([head] + rest)[1..] == rest;
    }
  }

  /** A route that is not stored goes to the end. */
  lemma {:induction false} InsertedNew(rs: seq<Tagged>, who: set<nat>, r: Route)
    requires !Stored(rs, r)
    ensures Inserted(rs, who, r) == rs + [Tagged(who, r)]
  {
    if rs != [] {
      assert forall t :: t in rs <==> t == rs[0] || t in rs[1..];
      InsertedNew(rs[1..], who, r);
    }
  }

  lemma {:induction false} StoredInAll(rs: seq<Tagged>, r: Route)
    ensures Stored(rs, r) <==> r in AllRoutes(rs)
  {
    if rs != [] {
      assert Stored(rs, r) <==> rs[0].route == r || Stored(rs[1..], r) by {
        assert forall t :: t in rs <==> t == rs[0] || t in rs[1..];
      }
      StoredInAll(rs[1..], r);
    }
  }

  // ---- the invariant ----

  lemma {:induction false} InsertStored(rs: seq<Tagged>, who: set<nat>, r: Route, x: Route)
    ensures Stored(Inserted(rs, who, r), x) <==> x == r || Stored(rs, x)
  {
    if rs == [] {
      assert Inserted(rs, who, r)[0].route == r;
    } else {
      var out := Inserted(rs, who, r);
      assert forall t :: t in rs <==> t == rs[0] || t in rs[1..];
      assert forall t :: t in out <==> t == out[0] || t in out[1..];
      if rs[0].route != r {
        InsertStored(rs[1..], who, r, x);
        assert out[1..] == Inserted(rs[1..], who, r);
      } else {
        assert out[1..] == rs[1..];
      }
    }
  }

  lemma {:induction false} InsertKeeps(rs: seq<Tagged>, who: set<nat>, r: Route)
    requires EntryInv(rs) && who != {}
    ensures EntryInv(Inserted(rs, who, r)) && Inserted(rs, who, r) != []
  {
    if rs != [] && rs[0].route != r {
      InsertKeeps(rs[1..], who, r);
      InsertStored(rs[1..], who, r, rs[0].route);
    }
  }

  lemma {:induction false} WithdrawStored(rs: seq<Tagged>, who: set<nat>, r: Route, x: Route)
    requires Stored(Withdrawn(rs, who, r), x)
    ensures Stored(rs, x)
  {
    if rs != [] {
      var one, rest := WithdrawOne(rs[0], who, r), Withdrawn(rs[1..], who, r);
      var t: Tagged :| t in one + rest && t.route == x;
      if t in rest {
        WithdrawStored(rs[1..], who, r, x);
        var u :| u in rs[1..] && u.route == x;
        assert u in rs;
      } else {
        assert rs[0] in rs;
      }
    }
  }

  lemma {:induction false} WithdrawKeeps(rs: seq<Tagged>, s: nat, r: Route)
    requires EntryInv(rs)
    ensures EntryInv(Withdrawn(rs, {s}, r))
  {
    if rs != [] {
      WithdrawKeeps(rs[1..], s, r);
      var one, rest := WithdrawOne(rs[0], {s}, r), Withdrawn(rs[1..], {s}, r);
      if one != [] {
        if Stored(rest, rs[0].route) { WithdrawStored(rs[1..], {s}, r, rs[0].route); }
        assert (one + rest)[1..] == rest;
      } else {
        assert one + rest == rest;
      }
    }
  }

  // ---- undo ----

  /** `s` holds no route from the peer of `r` at its prefix. */
  predicate HoldsNone(rs: seq<Tagged>, s: nat, r: Route) {
    forall t <- rs :: s in t.holders ==> !SameSource(t.route, r)
  }

  lemma {:induction false} WithdrawNothing(rs: seq<Tagged>, s: nat, r: Route)
    requires EntryInv(rs) && HoldsNone(rs, s, r)
    ensures Withdrawn(rs, {s}, r) == rs
  {
    if rs != [] {
      assert HoldsNone(rs[1..], s, r);
      WithdrawNothing(rs[1..], s, r);
      if SameSource(rs[0].route, r) {
        assert rs[0].holders - {s} == rs[0].holders;
      }
    }
  }

  /** Insert followed by remove restores the entry literally, order and other masks included. */
  lemma {:induction false} InsertWithdraw(rs: seq<Tagged>, s: nat, r: Route)
    requires EntryInv(rs) && HoldsNone(rs, s, r)
    ensures Withdrawn(Inserted(rs, {s}, r), {s}, r) == rs
  {
    if rs != [] {
      assert HoldsNone(rs[1..], s, r);
      if rs[0].route == r {
        WithdrawNothing(rs[1..], s, r);
        assert rs[0].holders + {s} - {s} == rs[0].holders;
        assert rs[0].holders + {s} != {s};
      } else {
        InsertWithdraw(rs[1..], s, r);
        if SameSource(rs[0].route, r) {
          assert rs[0].holders - {s} == rs[0].holders;
        }
      }
    }
  }

  // ---- the class ----

  /** A stored route with its machine mask. */
  datatype Masked = Masked(mask: RouterMask, route: Route)

  function Tag(t: Masked): Tagged {
    Tagged(Bits(t.mask), t.route)
  }

  function Tags(rs: seq<Masked>): seq<Tagged> {
    if rs == [] then [] else [Tag(rs[0])] + Tags(rs[1..])
  }

  /** The condition of `retain` in `withdraw`. */
  function Kept(mask: RouterMask, r: Route): Masked -> bool {
    (t: Masked) => !(mask == t.mask && SameSource(r, t.route))
  }

  /** The update of the second pass of `withdraw`. */
  function Cleared(mask: RouterMask, r: Route): Masked -> Masked {
    (t: Masked) => if SameSource(r, t.route) then Masked(Without(t.mask, mask), t.route) else t
  }

  function WithMask(rs: seq<Masked>, mask: RouterMask): seq<Route> {
    if rs == [] then []
    else (if Contains(rs[0].mask, mask) then [rs[0].route] else []) + WithMask(rs[1..], mask)
  }

  lemma {:induction false} WithMaskIsView(rs: seq<Masked>, mask: RouterMask)
    ensures WithMask(rs, mask) == View(Tags(rs), Bits(mask))
  {
    hide Bits, Contains;
    if rs != [] {
      ContainsIsSuperset(rs[0].mask, mask);
      WithMaskIsView(rs[1..], mask);
    }
  }

  lemma {:induction false} TagsRoutes(rs: seq<Masked>)
    ensures |AllRoutes(Tags(rs))| == |rs|
    ensures forall j | 0 <= j < |rs| :: AllRoutes(Tags(rs))[j] == rs[j].route
  {
    hide Bits;
    if rs != [] {
      TagsRoutes(rs[1..]);
    }
  }

  /** Merging at the first equal route, or pushing when there is none, is `Inserted`. */
  lemma {:induction false} InsertAt(rs: seq<Masked>, k: nat, mask: RouterMask, r: Route)
    requires k <= |rs| && forall j | 0 <= j < k :: rs[j].route != r
    requires k < |rs| ==> rs[k].route == r
    ensures Inserted(Tags(rs), Bits(mask), r)
         == Tags(if k < |rs| then rs[k := Masked(Combine(rs[k].mask, mask), r)] else rs + [Masked(mask, r)])
  {
    hide Bits, Combine;
    if k == 0 {
      if rs != [] {
        CombineIsUnion(rs[0].mask, mask);
        assert rs[0 := Masked(Combine(rs[0].mask, mask), r)][1..] == rs[1..];
      }
    } else {
      InsertAt(rs[1..], k - 1, mask, r);
      if k < |rs| {
        var m := Masked(Combine(rs[k].mask, mask), r);
        assert rs[k := m][1..] == rs[1..][k - 1 := m];
      } else {
        assert (rs + [Masked(mask, r)])[1..] == rs[1..] + [Masked(mask, r)];
      }
    }
  }

  /** Retaining and then clearing is `Withdrawn`. */
  lemma {:induction false} WithdrawPasses(rs: seq<Masked>, mask: RouterMask, r: Route)
    ensures Tags(Map(Filter(rs, Kept(mask, r)), Cleared(mask, r))) == Withdrawn(Tags(rs), Bits(mask), r)
  {
    hide Bits, Without;
    if rs != [] {
      WithdrawPasses(rs[1..], mask, r);
      SameBits(mask, rs[0].mask);
      WithoutIsDifference(rs[0].mask, mask);
      var rest := Filter(rs[1..], Kept(mask, r));
      if Kept(mask, r)(rs[0]) {
        assert ([rs[0]] + rest)[1..] == rest;
      } else {
        assert [] + rest == rest;
      }
    }
  }

  class BgpRibEntry {
    var routes: seq<Masked>

    ghost function Model(): seq<Tagged>
      reads this
    {
      Tags(routes)
    }

    constructor ()
      ensures routes == [] && Model() == []
    {
      routes := [];
    }

    method Insert(router: RouterMask, route: Route)
      modifies this
      ensures Model() == Inserted(old(Model()), Bits(router), route)
    {
      hide Bits, Combine;
      for k := 0 to |routes|
        invariant routes == old(routes)
        invariant forall j | 0 <= j < k :: routes[j].route != route
      {
        if routes[k].route == route {
          InsertAt(routes, k, router, route);
          routes := routes[k := Masked(Combine(routes[k].mask, router), route)];
          return;
        }
      }
      InsertAt(routes, |routes|, router, route);
      routes := routes + [Masked(router, route)];
    }

    /** `retain`: a matching route held by nobody else goes. */
    method DropOwn(mask: RouterMask, route: Route)
      modifies this
      ensures routes == Filter(old(routes), Kept(mask, route))
    {
      var kept := [];
      for k := 0 to |routes|
        invariant routes == old(routes)
        invariant kept == Filter(routes[..k], Kept(mask, route))
      {
        assert routes[..k + 1] == routes[..k] + [routes[k]];
        FilterAppend(routes[..k], [routes[k]], Kept(mask, route));
        if !(mask == routes[k].mask && SameSource(route, routes[k].route)) {
          kept := kept + [routes[k]];
        }
      }
      assert routes[..|routes|] == routes;
      routes := kept;
    }

    /** `for_each`: the other matching routes lose the router. */
    method ClearOthers(mask: RouterMask, route: Route)
      modifies this
      ensures routes == Map(old(routes), Cleared(mask, route))
    {
      hide Without;
      ghost var before := routes;
      for k := 0 to |routes|
        invariant |routes| == |before|
        invariant forall j | 0 <= j < k :: routes[j] == Cleared(mask, route)(before[j])
        invariant forall j | k <= j < |before| :: routes[j] == before[j]
      {
        if SameSource(route, routes[k].route) {
          routes := routes[k := Masked(Without(routes[k].mask, mask), routes[k].route)];
        }
      }
      MapPointwise(before, Cleared(mask, route), routes);
    }

    method Withdraw(mask: RouterMask, route: Route)
      modifies this
      ensures Model() == Withdrawn(old(Model()), Bits(mask), route)
    {
      hide Bits, Without;
      WithdrawPasses(routes, mask, route);
      DropOwn(mask, route);
      ClearOthers(mask, route);
    }

    function GetWithMask(router: RouterMask): (found: seq<Route>)
      reads this
      ensures found == View(Model(), Bits(router))
    {
      WithMaskIsView(routes, router);
      WithMask(routes, router)
    }

    function GetAll(): (found: seq<Route>)
      reads this
      ensures found == AllRoutes(Model())
    {
      TagsRoutes(routes);
      seq(|routes|, i requires 0 <= i < |routes| reads this => routes[i].route)
    }

    function Len(): (n: nat)
      reads this
      ensures n == |Model()|
    {
      TagsLength(routes);
      |routes|
    }
  }

  lemma {:induction false} TagsLength(rs: seq<Masked>)
    ensures |Tags(rs)| == |rs|
  {
    hide Bits;
    if rs != [] {
      TagsLength(rs[1..]);
    }
  }
}
