/** Routes, their comparison and best-route selection
    (src/components/route.rs, src/components/bgp/bgp_bestroute.rs). */
module Routes {
  import opened Wrappers
  import opened IpNetworks

  datatype PathElement = ASN(asn: nat) | ASSet(asns: seq<nat>)

  type Path = seq<PathElement>

  datatype Route = Route(peer: IpAddr, prefix: IpNetwork, nextHop: string, asPath: Path)

  datatype Ordering = Less | Equal | Greater

  /** `partial_cmp`: the shorter path is the greater route, then the larger peer; a path
      element that is a set of autonomous systems counts once. */
  function PartialCmp(a: Route, b: Route): Option<Ordering> {
    if |a.asPath| != |b.asPath| then
      Some(if |a.asPath| < |b.asPath| then Greater else Less)
    else if a.peer != b.peer then
      Some(if Below(a.peer, b.peer) then Less else Greater)
    else
      None
  }

  function Cmp(a: Route, b: Route): Ordering {
    match PartialCmp(a, b)
    case Some(ordering) => ordering
    case None => Equal
  }

  predicate Beats(a: Route, b: Route) {
    Cmp(a, b) == Greater
  }

  /** What the comparison looks at. */
  function Key(r: Route): (nat, IpAddr) {
    (|r.asPath|, r.peer)
  }

  predicate SameSource(a: Route, b: Route) {
    a.peer == b.peer && a.prefix == b.prefix
  }

  /** The comparison is a total preorder: it ranks keys linearly but cannot tell apart
      different routes with the same key. */
  lemma CmpIsPreorder(a: Route, b: Route, c: Route)
    ensures Cmp(a, b) == Equal <==> Key(a) == Key(b)
    ensures Beats(a, b) <==> Cmp(b, a) == Less
    ensures !Beats(a, b) && !Beats(b, c) ==> !Beats(a, c)
    ensures Beats(a, b) && !Beats(c, b) ==> Beats(a, c)
    ensures !Beats(b, a) && Beats(b, c) ==> Beats(a, c)
  {
  }

  /** Which of two routes wins: the one with the shorter path; of equally long ones, the one with the
      later peer, IPv6 after IPv4 and larger addresses after smaller ones. */
  lemma BeatsIff(a: Route, b: Route)
    ensures Beats(a, b)
       <==> || |a.asPath| < |b.asPath|
            || (|a.asPath| == |b.asPath|
                && if a.peer.family == b.peer.family then a.peer.bits > b.peer.bits
                   else a.peer.family == V6 && b.peer.family == V4)
  {
  }

  /** `calculate`: the iterator's maximum, which keeps the later of two equal elements. */
  function Best(routes: seq<Route>): Option<Route> {
    if routes == [] then None
    else
      var last := routes[|routes| - 1];
      match Best(routes[..|routes| - 1])
      case None => Some(last)
      case Some(b) => if Beats(b, last) then Some(b) else Some(last)
  }

  /** No route of the list beats `r`. */
  predicate Unbeaten(routes: seq<Route>, r: Route) {
    forall x <- routes :: !Beats(x, r)
  }

  /** The best route stands at an index that nothing beats and everything later is beaten by. */
  lemma {:induction false} BestIsLastMaximum(routes: seq<Route>) returns (k: nat)
    requires routes != []
    ensures k < |routes| && Best(routes) == Some(routes[k])
    ensures Unbeaten(routes, routes[k])
    ensures forall j | k < j < |routes| :: Beats(routes[k], routes[j])
  {
    var n := |routes| - 1;
    var init, last := routes[..n], routes[n];
    assert routes == init + [last];
    if init == [] {
      k := n;
    } else {
      k := BestIsLastMaximum(init);
      if !Beats(routes[k], last) {
        forall x <- routes ensures !Beats(x, last) {
          if x in init { CmpIsPreorder(x, routes[k], last); }
        }
        k := n;
      }
    }
  }

  lemma BestMember(routes: seq<Route>)
    ensures Best(routes).None? <==> routes == []
    ensures Best(routes).Some? ==> Best(routes).value in routes && Unbeaten(routes, Best(routes).value)
  {
    if routes != [] {
      var k := BestIsLastMaximum(routes);
    }
  }

  /** The best route has a path of minimal length and, among the routes with such a path, the latest
      peer; of the routes with that path length and that peer it is the last. */
  lemma BestIsShortest(routes: seq<Route>) returns (k: nat)
    requires routes != []
    ensures k < |routes| && Best(routes) == Some(routes[k])
    ensures forall x <- routes :: |routes[k].asPath| <= |x.asPath|
    ensures forall x <- routes :: |x.asPath| == |routes[k].asPath| ==>
              if x.peer.family == routes[k].peer.family then x.peer.bits <= routes[k].peer.bits
              else routes[k].peer.family == V6
    ensures forall j :: k < j < |routes| ==>
              |routes[j].asPath| != |routes[k].asPath| || routes[j].peer != routes[k].peer
  {
    k := BestIsLastMaximum(routes);
    forall x | x in routes ensures !Beats(x, routes[k]) {
      BeatsIff(x, routes[k]);
    }
  }

  /** Appending a route replaces the best one exactly when nothing beats it. */
  lemma BestAppend(routes: seq<Route>, r: Route)
    ensures Unbeaten(routes, r) ==> Best(routes + [r]) == Some(r)
    ensures !Unbeaten(routes, r) ==> Best(routes + [r]) == Best(routes) && Key(Best(routes).value) != Key(r)
  {
    assert (routes + [r])[..|routes|] == routes;
    BestMember(routes);
    if routes != [] {
      var b := Best(routes).value;
      if x :| x in routes && Beats(x, r) {
        CmpIsPreorder(b, x, r);
        CmpIsPreorder(x, b, r);
      }
    }
  }

  /** The key of the best route depends only on the set of routes. */
  lemma BestKeyOfSet(xs: seq<Route>, ys: seq<Route>)
    requires forall r :: r in xs <==> r in ys
    ensures Best(xs).Some? <==> Best(ys).Some?
    ensures Best(xs).Some? ==> Key(Best(xs).value) == Key(Best(ys).value)
  {
    BestMember(xs);
    BestMember(ys);
    if xs != [] {
      assert xs[0] in ys;
      CmpIsPreorder(Best(xs).value, Best(ys).value, xs[0]);
    }
    if ys != [] {
      assert ys[0] in xs;
    }
  }

  /** Dropping other routes leaves the best route the best. */
  lemma {:induction false} BestSurvives(routes: seq<Route>, kept: Route -> bool)
    requires Best(routes).Some? && kept(Best(routes).value)
    ensures Best(Filter(routes, kept)) == Best(routes)
    decreases |routes|
  {
    var n := |routes| - 1;
    var init, last := routes[..n], routes[n];
    FilterAppend(init, [last], kept);
    assert routes == init + [last];
    var rest := Filter(init, kept);
    assert Filter([last], kept) == if kept(last) then [last] else [];
    BestMember(init);
    BestMember(rest);
    if init != [] && Beats(Best(init).value, last) {
      BestSurvives(init, kept);
      if kept(last) {
        assert (rest + [last])[..|rest|] == rest;
      } else {
        assert rest + [] == rest;
      }
    } else {
      assert (rest + [last])[..|rest|] == rest;
      if rest != [] {
        var z := Best(rest).value;
        FilterMember(init, kept, z);
        CmpIsPreorder(z, Best(init).value, last);
      }
    }
  }
}
