/** Advertisements and their expansion into routes (src/components/advertisement.rs). A text
    that the code parses is carried as the outcome of the parse: `None` does not parse. */
module Advertisements {
  import opened Wrappers
  import opened IpNetworks
  import opened Routes

  datatype Announcement = Announcement(nextHop: string, prefixes: seq<Option<IpNetwork>>)

  datatype Advertisement = Advertisement(
    peer: Option<IpAddr>,
    host: string,
    path: Option<Path>,
    announcements: Option<seq<Announcement>>,
    withdrawals: Option<seq<Option<IpNetwork>>>)

  function PathOf(ad: Advertisement): Path {
    if ad.path.Some? then ad.path.value else []
  }

  /** The path that the routes of an advertisement have: its own, or none when it has none. */
  predicate TellsPath(ad: Advertisement, path: Path) {
    ad.path == Some(path) || (ad.path == None && path == [])
  }

  /** The route for one prefix text; a peer or prefix that does not parse yields none. */
  function RouteFor(ad: Advertisement, nextHop: string, prefix: Option<IpNetwork>): seq<Route> {
    if ad.peer.Some? && prefix.Some? then [Route(ad.peer.value, prefix.value, nextHop, PathOf(ad))]
    else []
  }

  function RoutesFor(ad: Advertisement, nextHop: string, prefixes: seq<Option<IpNetwork>>): seq<Route> {
    if prefixes == [] then []
    else RouteFor(ad, nextHop, prefixes[0]) + RoutesFor(ad, nextHop, prefixes[1..])
  }

  function Expand(ad: Advertisement, announcements: seq<Announcement>): seq<Route> {
    if announcements == [] then []
    else RoutesFor(ad, announcements[0].nextHop, announcements[0].prefixes) + Expand(ad, announcements[1..])
  }

  function Announced(ad: Advertisement): seq<Route> {
    if ad.announcements.Some? then Expand(ad, ad.announcements.value) else []
  }

  /** Withdrawn routes carry an empty next hop. */
  function Withdrawals(ad: Advertisement): seq<Route> {
    if ad.withdrawals.Some? then RoutesFor(ad, "", ad.withdrawals.value) else []
  }

  lemma {:induction false} RoutesForAppend(ad: Advertisement, nextHop: string,
                                           a: seq<Option<IpNetwork>>, b: seq<Option<IpNetwork>>)
    ensures RoutesFor(ad, nextHop, a + b) == RoutesFor(ad, nextHop, a) + RoutesFor(ad, nextHop, b)
  {
    if a == [] {
      assert a + b == b;
    } else {
      assert (a + b)[0] == a[0] && (a + b)[1..] == a[1..] + b;
      RoutesForAppend(ad, nextHop, a[1..], b);
    }
  }

  lemma {:induction false} ExpandAppend(ad: Advertisement, a: seq<Announcement>, b: seq<Announcement>)
    ensures Expand(ad, a + b) == Expand(ad, a) + Expand(ad, b)
  {
    if a == [] {
      assert a + b == b;
    } else {
      assert (a + b)[0] == a[0] && (a + b)[1..] == a[1..] + b;
      ExpandAppend(ad, a[1..], b);
    }
  }

  method GetAnnouncements(ad: Advertisement) returns (routes: seq<Route>)
    ensures routes == Announced(ad)
  {
    routes := [];
    if ad.announcements.Some? {
      var announcements := ad.announcements.value;
      for i := 0 to |announcements|
        invariant routes == Expand(ad, announcements[..i])
      {
        var a := announcements[i];
        for j := 0 to |a.prefixes|
          invariant routes == Expand(ad, announcements[..i]) + RoutesFor(ad, a.nextHop, a.prefixes[..j])
        {
          assert a.prefixes[..j + 1] == a.prefixes[..j] + [a.prefixes[j]];
          RoutesForAppend(ad, a.nextHop, a.prefixes[..j], [a.prefixes[j]]);
          if ad.peer.Some? && a.prefixes[j].Some? {
            routes := routes + [Route(ad.peer.value, a.prefixes[j].value, a.nextHop, PathOf(ad))];
          }
        }
        assert a.prefixes[..|a.prefixes|] == a.prefixes;
        assert announcements[..i + 1] == announcements[..i] + [a];
        ExpandAppend(ad, announcements[..i], [a]);
      }
      assert announcements[..|announcements|] == announcements;
    }
  }

  method GetWithdrawals(ad: Advertisement) returns (routes: seq<Route>)
    ensures routes == Withdrawals(ad)
  {
    routes := [];
    if ad.withdrawals.Some? {
      var withdrawals := ad.withdrawals.value;
      for i := 0 to |withdrawals|
        invariant routes == RoutesFor(ad, "", withdrawals[..i])
      {
        assert withdrawals[..i + 1] == withdrawals[..i] + [withdrawals[i]];
        RoutesForAppend(ad, "", withdrawals[..i], [withdrawals[i]]);
        if ad.peer.Some? && withdrawals[i].Some? {
          routes := routes + [Route(ad.peer.value, withdrawals[i].value, "", PathOf(ad))];
        }
      }
      assert withdrawals[..|withdrawals|] == withdrawals;
    }
  }

  // ---- what the expansions contain ----

  lemma {:induction false} RoutesForMember(ad: Advertisement, nextHop: string,
                                           prefixes: seq<Option<IpNetwork>>, x: Route)
    ensures x in RoutesFor(ad, nextHop, prefixes)
       <==> ad.peer == Some(x.peer) && Some(x.prefix) in prefixes && x.nextHop == nextHop && TellsPath(ad, x.asPath)
  {
    if prefixes != [] {
      RoutesForMember(ad, nextHop, prefixes[1..], x);
    }
  }

  lemma {:induction false} ExpandMember(ad: Advertisement, announcements: seq<Announcement>, x: Route)
    ensures x in Expand(ad, announcements)
       <==> && ad.peer == Some(x.peer) && TellsPath(ad, x.asPath)
            && exists a <- announcements :: Some(x.prefix) in a.prefixes && x.nextHop == a.nextHop
  {
    if announcements != [] {
      ExpandMember(ad, announcements[1..], x);
      RoutesForMember(ad, announcements[0].nextHop, announcements[0].prefixes, x);
      assert forall a :: a in announcements <==> a == announcements[0] || a in announcements[1..];
    }
  }

  /** Announced and withdrawn routes carry the path of the advertisement, unchanged, and an empty one
      when it has none; they carry its peer, and there are none when the peer does not parse. */
  lemma RoutesCarryThePath(ad: Advertisement, x: Route)
    requires x in Announced(ad) || x in Withdrawals(ad)
    ensures ad.path.Some? ==> x.asPath == ad.path.value
    ensures ad.path.None? ==> x.asPath == []
    ensures ad.peer == Some(x.peer)
  {
    if x in Announced(ad) {
      ExpandMember(ad, ad.announcements.value, x);
    } else {
      RoutesForMember(ad, "", ad.withdrawals.value, x);
    }
  }

  /** An advertisement names a pair of prefix and next hop. */
  predicate Names(ad: Advertisement, prefix: IpNetwork, nextHop: string) {
    && ad.announcements.Some?
    && exists a <- ad.announcements.value :: Some(prefix) in a.prefixes && a.nextHop == nextHop
  }

  // ---- generated advertisements ----

  function AnnounceOne(r: Route): Announcement {
    Announcement(r.nextHop, [Some(r.prefix)])
  }

  function PrefixOf(r: Route): Option<IpNetwork> {
    Some(r.prefix)
  }

  /** The address of a process, with its text. */
  datatype Printed = Printed(address: IpAddr, text: string)

  /** `generate_advertisement`: the address of the process as peer and as host, one announcement per
      reported route, and no path. */
  function Generated(ip: Printed, announced: seq<Route>, withdrawn: seq<Route>): Advertisement {
    Advertisement(Some(ip.address), ip.text, None, Some(Map(announced, AnnounceOne)), Some(Map(withdrawn, PrefixOf)))
  }

  function AsSeenFrom(ip: Printed): Route -> Route {
    (r: Route) => Route(ip.address, r.prefix, r.nextHop, [])
  }

  function AsWithdrawnBy(ip: Printed): Route -> Route {
    (r: Route) => Route(ip.address, r.prefix, "", [])
  }

  /** Round trip: a neighbour expands a generated advertisement into exactly the reported
      routes, in order, as routes of the sender with an empty path. */
  lemma GeneratedAnnounces(ip: Printed, announced: seq<Route>, withdrawn: seq<Route>)
    ensures Announced(Generated(ip, announced, withdrawn)) == Map(announced, AsSeenFrom(ip))
  {
    ExpandGenerated(Generated(ip, announced, withdrawn), ip, announced);
  }

  lemma {:induction false} ExpandGenerated(ad: Advertisement, ip: Printed, announced: seq<Route>)
    requires ad.peer == Some(ip.address) && ad.path == None
    ensures Expand(ad, Map(announced, AnnounceOne)) == Map(announced, AsSeenFrom(ip))
  {
    if announced != [] {
      ExpandGenerated(ad, ip, announced[1..]);
      var one: Option<IpNetwork> := Some(announced[0].prefix);
      assert |[one][1..]| == 0;
      assert RoutesFor(ad, announced[0].nextHop, [one]) == [AsSeenFrom(ip)(announced[0])];
    }
  }

  lemma {:induction false} GeneratedWithdraws(ip: Printed, announced: seq<Route>, withdrawn: seq<Route>)
    ensures Withdrawals(Generated(ip, announced, withdrawn)) == Map(withdrawn, AsWithdrawnBy(ip))
  {
    if withdrawn != [] {
      GeneratedWithdraws(ip, announced, withdrawn[1..]);
      WithdrawalsSamePeer(Generated(ip, announced, withdrawn), Generated(ip, announced, withdrawn[1..]), "",
                          Map(withdrawn[1..], PrefixOf));
    }
  }

  lemma {:induction false} WithdrawalsSamePeer(a: Advertisement, b: Advertisement, nextHop: string,
                                               prefixes: seq<Option<IpNetwork>>)
    requires a.peer == b.peer && a.path == b.path
    ensures RoutesFor(a, nextHop, prefixes) == RoutesFor(b, nextHop, prefixes)
  {
    if prefixes != [] {
      WithdrawalsSamePeer(a, b, nextHop, prefixes[1..]);
    }
  }

  // ---- the filters on advertisements ----

  /** `HostFilter::filter` keeps what comes from one host. */
  predicate HostFilter(host: string, ad: Advertisement) {
    ad.host == host
  }

  /** What a router generates passes the filter of its own host and of no other. */
  lemma HostFilterPassesOwn(host: string, ip: Printed, announced: seq<Route>, withdrawn: seq<Route>)
    ensures HostFilter(host, Generated(ip, announced, withdrawn)) <==> host == ip.text
  {
  }

  /** `OwnASFilter::filter`: false when the path, sets included, mentions the number. */
  predicate OwnASFilter(asn: nat, ad: Advertisement) {
    !(ad.path.Some? && exists e <- ad.path.value :: if e.ASN? then e.asn == asn else asn in e.asns)
  }

  /** An advertisement is rejected exactly when some element of its path is the number, or is a set
      that has it; one without a path never is. */
  lemma OwnASRejectsIff(asn: nat, ad: Advertisement)
    ensures !OwnASFilter(asn, ad)
       <==> ad.path.Some? && exists k :: 0 <= k < |ad.path.value|
                                         && match ad.path.value[k]
                                            case ASN(number) => number == asn
                                            case ASSet(numbers) => exists j :: 0 <= j < |numbers| && numbers[j] == asn
  {
  }
}
