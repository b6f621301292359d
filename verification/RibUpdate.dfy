/** Folding advertisements into the table (`BgpRibInterface` in
    src/components/bgp/bgp_rib.rs). */
module RibUpdates {
  import opened Wrappers
  import opened RouterMaskMaps
  import opened Routes
  import opened RibEntries
  import opened Ribs
  import opened RibRuns
  import opened Advertisements
  import BgpRibs

  function InsertBy(id: Uuid): Route -> RibOp {
    (r: Route) => InsertOp(id, r)
  }

  function RemoveBy(id: Uuid): Route -> RibOp {
    (r: Route) => RemoveOp(id, r)
  }

  /** Within one advertisement the announcements come first. */
  function OpsOf(ad: Advertisement, id: Uuid): seq<RibOp> {
    Map(Announced(ad), InsertBy(id)) + Map(Withdrawals(ad), RemoveBy(id))
  }

  function OpsOfAll(ads: seq<Advertisement>, id: Uuid): seq<RibOp> {
    if ads == [] then [] else OpsOf(ads[0], id) + OpsOfAll(ads[1..], id)
  }

  /** The operations of one advertisement, one by one: the announced routes in order, then the
      withdrawn ones. */
  lemma OpsOfAt(ad: Advertisement, id: Uuid, k: nat)
    requires k < |Announced(ad)| + |Withdrawals(ad)|
    ensures |OpsOf(ad, id)| == |Announced(ad)| + |Withdrawals(ad)|
    ensures OpsOf(ad, id)[k] == if k < |Announced(ad)| then InsertOp(id, Announced(ad)[k])
                                else RemoveOp(id, Withdrawals(ad)[k - |Announced(ad)|])
  {
    hide Announced, Withdrawals;
    MapLength(Announced(ad), InsertBy(id));
    MapLength(Withdrawals(ad), RemoveBy(id));
    if k < |Announced(ad)| {
      MapIndex(Announced(ad), InsertBy(id), k);
    } else {
      MapIndex(Withdrawals(ad), RemoveBy(id), k - |Announced(ad)|);
    }
  }

  lemma {:induction false} MapIndex(routes: seq<Route>, f: Route -> RibOp, k: nat)
    requires k < |routes|
    ensures |Map(routes, f)| == |routes| && Map(routes, f)[k] == f(routes[k])
    decreases |routes|
  {
    MapLength(routes, f);
    if k > 0 {
      MapIndex(routes[1..], f, k - 1);
    }
  }

  lemma {:induction false} MapLength(routes: seq<Route>, f: Route -> RibOp)
    ensures |Map(routes, f)| == |routes|
  {
    if routes != [] {
      MapLength(routes[1..], f);
    }
  }

  /** The changes a run reports: insertions and removals. */
  datatype Changes = Changes(announced: seq<Route>, withdrawn: seq<Route>)

  const NOTHING := Changes([], [])

  function Join(a: Changes, b: Changes): Changes {
    Changes(a.announced + b.announced, a.withdrawn + b.withdrawn)
  }

  function AsSeq(o: Option<Route>): seq<Route> {
    if o.Some? then [o.value] else []
  }

  function ReportOne(s: Rib, op: RibOp): Changes {
    match op
    case InsertOp(_, r) => Changes(AsSeq(InsertReport(s, r)), [])
    case RemoveOp(_, r) => Changes([], AsSeq(RemoveReport(s, r)))
    case _ => NOTHING
  }

  function Reports(s: Rib, ops: seq<RibOp>): Changes
    requires Finishes(s, ops)
    decreases |ops|
  {
    if ops == [] then NOTHING
    else Join(ReportOne(s, ops[0]), Reports(Apply(s, ops[0]), ops[1..]))
  }

  // ---- runs can be cut anywhere ----

  lemma {:induction false} PlayAppend(s: Rib, a: seq<RibOp>, b: seq<RibOp>)
    ensures Finishes(s, a + b) <==> Finishes(s, a) && Finishes(Play(s, a), b)
    ensures Finishes(s, a + b) ==>
              && Play(s, a + b) == Play(Play(s, a), b)
              && Reports(s, a + b) == Join(Reports(s, a), Reports(Play(s, a), b))
    decreases |a|
  {
    hide Apply, Admits, ReportOne;
    if a == [] {
      assert a + b == b;
    } else {
      assert (a + b)[0] == a[0] && (a + b)[1..] == a[1..] + b;
      if Admits(s, a[0]) {
        PlayAppend(Apply(s, a[0]), a[1..], b);
      }
    }
  }

  lemma {:induction false} OpsOfAllAppend(a: seq<Advertisement>, b: seq<Advertisement>, id: Uuid)
    ensures OpsOfAll(a + b, id) == OpsOfAll(a, id) + OpsOfAll(b, id)
  {
    hide OpsOf;
    if a == [] {
      assert a + b == b;
    } else {
      assert (a + b)[0] == a[0] && (a + b)[1..] == a[1..] + b;
      OpsOfAllAppend(a[1..], b, id);
      assert OpsOf(a[0], id) + (OpsOfAll(a[1..], id) + OpsOfAll(b, id))
          == (OpsOf(a[0], id) + OpsOfAll(a[1..], id)) + OpsOfAll(b, id);
    }
  }

  /** What each batch of a sequence of updates reports, the table carried along. */
  function BatchReports(s: Rib, batches: seq<seq<Advertisement>>, id: Uuid): seq<Changes>
    requires Finishes(s, OpsOfAll(Flatten(batches), id))
    decreases |batches|
  {
    if batches == [] then []
    else
      FlattenCut(s, batches, id);
      var ops := OpsOfAll(batches[0], id);
      [Reports(s, ops)] + BatchReports(Play(s, ops), batches[1..], id)
  }

  lemma FlattenCut(s: Rib, batches: seq<seq<Advertisement>>, id: Uuid)
    requires batches != [] && Finishes(s, OpsOfAll(Flatten(batches), id))
    ensures var ops, rest := OpsOfAll(batches[0], id), OpsOfAll(Flatten(batches[1..]), id);
            && OpsOfAll(Flatten(batches), id) == ops + rest
            && Finishes(s, ops) && Finishes(Play(s, ops), rest)
            && Play(s, OpsOfAll(Flatten(batches), id)) == Play(Play(s, ops), rest)
            && Reports(s, OpsOfAll(Flatten(batches), id)) == Join(Reports(s, ops), Reports(Play(s, ops), rest))
  {
    OpsOfAllAppend(batches[0], Flatten(batches[1..]), id);
    PlayAppend(s, OpsOfAll(batches[0], id), OpsOfAll(Flatten(batches[1..]), id));
  }

  function JoinAll(cs: seq<Changes>): Changes {
    if cs == [] then NOTHING else Join(cs[0], JoinAll(cs[1..]))
  }

  /** The batches' reports, one after the other, are the report of the whole stream: each
      change is reported exactly once, in order, wherever the batches are cut. */
  lemma {:induction false} BatchesReportOnce(s: Rib, batches: seq<seq<Advertisement>>, id: Uuid)
    requires Finishes(s, OpsOfAll(Flatten(batches), id))
    ensures JoinAll(BatchReports(s, batches, id)) == Reports(s, OpsOfAll(Flatten(batches), id))
    decreases |batches|
  {
    hide Play, Finishes;
    if batches != [] {
      FlattenCut(s, batches, id);
      BatchesReportOnce(Play(s, OpsOfAll(batches[0], id)), batches[1..], id);
    }
  }

  /** The routes that nothing stored beat when they were inserted, in order. */
  function MaximalWhenInserted(s: Rib, ops: seq<RibOp>): seq<Route>
    requires Finishes(s, ops)
    decreases |ops|
  {
    if ops == [] then []
    else
      (if ops[0].InsertOp? && Unbeaten(AllRoutes(EntryAt(s, ops[0].route.prefix)), ops[0].route)
       then [ops[0].route] else [])
      + MaximalWhenInserted(Apply(s, ops[0]), ops[1..])
  }

  /** The routes that were the best of all routers when they were removed, in order. */
  function BestWhenRemoved(s: Rib, ops: seq<RibOp>): seq<Route>
    requires Finishes(s, ops)
    decreases |ops|
  {
    if ops == [] then []
    else
      (if ops[0].RemoveOp? && OverallBest(s, ops[0].route.prefix) == Some(ops[0].route) then [ops[0].route] else [])
      + BestWhenRemoved(Apply(s, ops[0]), ops[1..])
  }

  lemma {:induction false} ReportsAreMaximal(s: Rib, ops: seq<RibOp>)
    requires Finishes(s, ops)
    ensures Reports(s, ops).announced == MaximalWhenInserted(s, ops)
    ensures Reports(s, ops).withdrawn == BestWhenRemoved(s, ops)
    decreases |ops|
  {
    hide Apply;
    if ops != [] {
      if ops[0].InsertOp? {
        InsertReportIsExact(s, ops[0].route, ops[0].id);
      }
      ReportsAreMaximal(Apply(s, ops[0]), ops[1..]);
    }
  }

  /** Exactly-once reporting: over any number of update cycles, the announcements handed on
      are, in order and each once, the received routes that were maximal when inserted, and the
      withdrawals those that were the best of all when removed. */
  lemma {:induction false} ExactlyOnce(s: Rib, batches: seq<seq<Advertisement>>, id: Uuid)
    requires Finishes(s, OpsOfAll(Flatten(batches), id))
    ensures JoinAll(BatchReports(s, batches, id)).announced
         == MaximalWhenInserted(s, OpsOfAll(Flatten(batches), id))
    ensures JoinAll(BatchReports(s, batches, id)).withdrawn
         == BestWhenRemoved(s, OpsOfAll(Flatten(batches), id))
  {
    BatchesReportOnce(s, batches, id);
    ReportsAreMaximal(s, OpsOfAll(Flatten(batches), id));
  }

  lemma {:induction false} OpsAreMine(ads: seq<Advertisement>, id: Uuid)
    ensures forall op <- OpsOfAll(ads, id) :: (op.InsertOp? || op.RemoveOp?) && op.id == id
  {
    if ads != [] {
      OpsAreMine(ads[1..], id);
      MapIsMine(Announced(ads[0]), InsertBy(id), id);
      MapIsMine(Withdrawals(ads[0]), RemoveBy(id), id);
    }
  }

  lemma {:induction false} MapIsMine(rs: seq<Route>, f: Route -> RibOp, id: Uuid)
    requires forall r :: (f(r).InsertOp? || f(r).RemoveOp?) && f(r).id == id
    ensures forall op <- Map(rs, f) :: (op.InsertOp? || op.RemoveOp?) && op.id == id
  {
    if rs != [] {
      MapIsMine(rs[1..], f, id);
    }
  }

  // ---- several clients of one table ----

  /** A turn at the shared table: a client folds in one advertisement under the lock, collects what
      waits for it, registers, or clears the table. */
  datatype Turn = Absorbs(client: Uuid, ad: Advertisement) | Collects(client: Uuid) | Registers(client: Uuid) | Clears

  function TurnOps(turn: Turn): seq<RibOp> {
    match turn
    case Absorbs(client, ad) => OpsOf(ad, client)
    case Collects(_) => []
    case Registers(client) => [RegisterOp(client)]
    case Clears => [ClearOp]
  }

  function OpsOfTurns(turns: seq<Turn>): seq<RibOp> {
    if turns == [] then [] else TurnOps(turns[0]) + OpsOfTurns(turns[1..])
  }

  /** What a turn hands over to client `id`, and what waits for that client afterwards. */
  function Handed(turn: Turn, waiting: Changes, id: Uuid): seq<Changes> {
    if turn == Collects(id) then [waiting] else []
  }

  function Waiting(s: Rib, turn: Turn, waiting: Changes, id: Uuid): Changes
    requires Finishes(s, TurnOps(turn))
  {
    if turn == Collects(id) then NOTHING
    else if turn.Absorbs? && turn.client == id then Join(waiting, Reports(s, OpsOf(turn.ad, id)))
    else waiting
  }

  /** What client `id` collects, collection by collection, and what still waits for it at the end. */
  function Collected(s: Rib, waiting: Changes, turns: seq<Turn>, id: Uuid): (seq<Changes>, Changes)
    requires Finishes(s, OpsOfTurns(turns))
    decreases |turns|
  {
    if turns == [] then ([], waiting)
    else
      PlayAppend(s, TurnOps(turns[0]), OpsOfTurns(turns[1..]));
      var (more, rest) := Collected(Play(s, TurnOps(turns[0])), Waiting(s, turns[0], waiting, id), turns[1..], id);
      (Handed(turns[0], waiting, id) + more, rest)
  }

  predicate IsBy(op: RibOp, id: Uuid) {
    (op.InsertOp? || op.RemoveOp?) && op.id == id
  }

  /** The reports of one client's operations within a run of all clients. */
  function ReportsBy(s: Rib, ops: seq<RibOp>, id: Uuid): Changes
    requires Finishes(s, ops)
    decreases |ops|
  {
    if ops == [] then NOTHING
    else Join(if IsBy(ops[0], id) then ReportOne(s, ops[0]) else NOTHING, ReportsBy(Apply(s, ops[0]), ops[1..], id))
  }

  /** The client's routes that nothing stored, by any client, beat when they were inserted. */
  function MaximalBy(s: Rib, ops: seq<RibOp>, id: Uuid): seq<Route>
    requires Finishes(s, ops)
    decreases |ops|
  {
    if ops == [] then []
    else
      (if ops[0].InsertOp? && ops[0].id == id && Unbeaten(AllRoutes(EntryAt(s, ops[0].route.prefix)), ops[0].route)
       then [ops[0].route] else [])
      + MaximalBy(Apply(s, ops[0]), ops[1..], id)
  }

  /** The client's removed routes that were the best of all routers when they were removed. */
  function BestRemovedBy(s: Rib, ops: seq<RibOp>, id: Uuid): seq<Route>
    requires Finishes(s, ops)
    decreases |ops|
  {
    if ops == [] then []
    else
      (if ops[0].RemoveOp? && ops[0].id == id && OverallBest(s, ops[0].route.prefix) == Some(ops[0].route)
       then [ops[0].route] else [])
      + BestRemovedBy(Apply(s, ops[0]), ops[1..], id)
  }

  lemma {:induction false} ReportsByAppend(s: Rib, a: seq<RibOp>, b: seq<RibOp>, id: Uuid)
    requires Finishes(s, a + b)
    ensures Finishes(s, a) && Finishes(Play(s, a), b)
    ensures ReportsBy(s, a + b, id) == Join(ReportsBy(s, a, id), ReportsBy(Play(s, a), b, id))
    decreases |a|
  {
    hide Apply, Admits, ReportOne;
    PlayAppend(s, a, b);
    if a == [] {
      assert a + b == b;
    } else {
      assert (a + b)[0] == a[0] && (a + b)[1..] == a[1..] + b;
      ReportsByAppend(Apply(s, a[0]), a[1..], b, id);
      JoinAssoc(if IsBy(a[0], id) then ReportOne(s, a[0]) else NOTHING,
                ReportsBy(Apply(s, a[0]), a[1..], id), ReportsBy(Play(s, a), b, id));
    }
  }

  lemma {:induction false} ReportsOfOne(s: Rib, ops: seq<RibOp>, owner: Uuid, id: Uuid)
    requires Finishes(s, ops) && forall op <- ops :: IsBy(op, owner)
    ensures ReportsBy(s, ops, id) == if owner == id then Reports(s, ops) else NOTHING
    decreases |ops|
  {
    hide Apply, Admits, ReportOne;
    if ops != [] {
      assert ops[0] in ops;
      ReportsOfOne(Apply(s, ops[0]), ops[1..], owner, id);
    }
  }

  lemma TurnReports(s: Rib, turn: Turn, id: Uuid)
    requires Finishes(s, TurnOps(turn))
    ensures ReportsBy(s, TurnOps(turn), id)
         == if turn.Absorbs? && turn.client == id then Reports(s, OpsOf(turn.ad, id)) else NOTHING
  {
    hide Apply, Admits, ReportOne;
    match turn {
      case Absorbs(client, ad) =>
        OpsAreMine([ad], client);
        assert OpsOfAll([ad], client) == OpsOf(ad, client) by {
          assert [ad][1..] == [];
        }
        ReportsOfOne(s, OpsOf(ad, client), client, id);
      case Collects(_) =>
      case Registers(client) =>
        assert [RegisterOp(client)][1..] == [];
      case Clears =>
        assert [ClearOp][1..] == [];
    }
  }

  lemma {:induction false} CollectedIsReported(s: Rib, waiting: Changes, turns: seq<Turn>, id: Uuid)
    requires Finishes(s, OpsOfTurns(turns))
    ensures var (collected, rest) := Collected(s, waiting, turns, id);
            Join(JoinAll(collected), rest) == Join(waiting, ReportsBy(s, OpsOfTurns(turns), id))
    decreases |turns|
  {
    hide Finishes, Play, Reports, ReportsBy, OpsOf, TurnOps, Handed, Waiting, Join, JoinAll;
    if turns == [] {
      NoReports(s, waiting, id);
    } else {
      var ops, more := TurnOps(turns[0]), OpsOfTurns(turns[1..]);
      PlayAppend(s, ops, more);
      ReportsByAppend(s, ops, more, id);
      TurnReports(s, turns[0], id);
      var waiting' := Waiting(s, turns[0], waiting, id);
      CollectedIsReported(Play(s, ops), waiting', turns[1..], id);
      var (collected, rest) := Collected(Play(s, ops), waiting', turns[1..], id);
      TurnIsJoined(s, turns[0], waiting, id);
      TurnJoins(Handed(turns[0], waiting, id), collected, rest, waiting', waiting,
                ReportsBy(s, ops, id), ReportsBy(Play(s, ops), more, id));
    }
  }

  /** A turn loses nothing: what it hands over and leaves waiting is what waited and what it reports. */
  lemma TurnIsJoined(s: Rib, turn: Turn, waiting: Changes, id: Uuid)
    requires Finishes(s, TurnOps(turn))
    ensures Join(JoinAll(Handed(turn, waiting, id)), Waiting(s, turn, waiting, id))
         == Join(waiting, ReportsBy(s, TurnOps(turn), id))
    ensures |Handed(turn, waiting, id)| <= 1
  {
    hide Reports, ReportsBy, OpsOf;
    TurnReports(s, turn, id);
    if turn == Collects(id) {
      assert [waiting][1..] == [];
    }
  }

  lemma TurnJoins(handed: seq<Changes>, more: seq<Changes>, rest: Changes, waiting': Changes,
                  waiting: Changes, now: Changes, later: Changes)
    requires |handed| <= 1 && Join(JoinAll(handed), waiting') == Join(waiting, now)
    requires Join(JoinAll(more), rest) == Join(waiting', later)
    ensures Join(JoinAll(handed + more), rest) == Join(waiting, Join(now, later))
  {
    if handed == [] {
      assert handed + more == more;
      assert waiting' == Join(waiting, now);
    } else {
      assert (handed + more)[1..] == more && handed[1..] == [];
      assert JoinAll(handed) == handed[0];
      JoinAssoc(handed[0], JoinAll(more), rest);
      JoinAssoc(handed[0], waiting', later);
    }
    JoinAssoc(waiting, now, later);
  }

  lemma NoReports(s: Rib, waiting: Changes, id: Uuid)
    ensures Finishes(s, []) && ReportsBy(s, [], id) == NOTHING
    ensures Join(JoinAll([]), waiting) == waiting == Join(waiting, NOTHING)
  {
  }

  lemma {:induction false} ReportsByAreMaximal(s: Rib, ops: seq<RibOp>, id: Uuid)
    requires Finishes(s, ops)
    ensures ReportsBy(s, ops, id).announced == MaximalBy(s, ops, id)
    ensures ReportsBy(s, ops, id).withdrawn == BestRemovedBy(s, ops, id)
    decreases |ops|
  {
    hide Apply;
    if ops != [] {
      if ops[0].InsertOp? {
        InsertReportIsExact(s, ops[0].route, ops[0].id);
      }
      ReportsByAreMaximal(Apply(s, ops[0]), ops[1..], id);
    }
  }

  /** Exactly-once reporting on a shared table: for any interleaving of the clients' locked sections
      and collections, what a client collects, followed by what still waits for it, announces in
      order and each once the routes it inserted that nothing stored beat at that moment, whoever
      stored it, and withdraws those it removed that were the best of all at that moment. */
  lemma {:induction false} ExactlyOncePerClient(s: Rib, turns: seq<Turn>, id: Uuid)
    requires Finishes(s, OpsOfTurns(turns))
    ensures var (collected, rest) := Collected(s, NOTHING, turns, id);
            && Join(JoinAll(collected), rest).announced == MaximalBy(s, OpsOfTurns(turns), id)
            && Join(JoinAll(collected), rest).withdrawn == BestRemovedBy(s, OpsOfTurns(turns), id)
  {
    CollectedIsReported(s, NOTHING, turns, id);
    ReportsByAreMaximal(s, OpsOfTurns(turns), id);
  }

  // ---- withdrawals ----

  /** The best route of all routers at the withdrawn prefix is the withdrawing peer's. */
  predicate BestIsFrom(s: Rib, w: Route) {
    OverallBest(s, w.prefix).Some? && SameSource(OverallBest(s, w.prefix).value, w)
  }

  /** A withdrawal read from an advertisement is reported exactly when the overall best route
      is that peer's and happens to have an empty next hop and the advertisement's path. */
  lemma WithdrawalReportedIff(s: Rib, ad: Advertisement, w: Route)
    requires w in Withdrawals(ad)
    ensures RemoveReport(s, w).Some?
       <==> && BestIsFrom(s, w)
            && OverallBest(s, w.prefix).value.nextHop == ""
            && TellsPath(ad, OverallBest(s, w.prefix).value.asPath)
  {
    RoutesForMember(ad, "", ad.withdrawals.value, w);
  }

  /** No stored route has an empty next hop. */
  ghost predicate NextHopsGiven(s: Rib) {
    forall p, x :: Stored(EntryAt(s, p), x) ==> x.nextHop != ""
  }

  predicate OpsGiven(ops: seq<RibOp>) {
    forall op <- ops :: (op.InsertOp? ==> op.route.nextHop != "") && (op.RemoveOp? ==> op.route.nextHop == "")
  }

  /** As long as every announced route has a next hop, no withdrawal is ever reported, not
      even that of the best route. */
  lemma {:induction false} WithdrawalsStaySilent(s: Rib, ops: seq<RibOp>)
    requires Finishes(s, ops) && NextHopsGiven(s) && OpsGiven(ops)
    ensures Reports(s, ops).withdrawn == [] && NextHopsGiven(Play(s, ops))
    decreases |ops|
  {
    if ops != [] {
      var op := ops[0];
      assert op in ops;
      if op.RemoveOp? && RemoveReport(s, op.route).Some? {
        BestMember(AllRoutes(EntryAt(s, op.route.prefix)));
        StoredInAll(EntryAt(s, op.route.prefix), op.route);
      }
      var s' := Apply(s, op);
      forall p, x | Stored(EntryAt(s', p), x)
        ensures x.nextHop != ""
      {
        ApplyStores(s, op, p, x);
      }
      WithdrawalsStaySilent(s', ops[1..]);
    }
  }

  lemma {:induction false} ReplayAppend(mine: set<Route>, a: seq<RibOp>, b: seq<RibOp>, id: Uuid)
    ensures Replay(mine, a + b, id) == Replay(Replay(mine, a, id), b, id)
    decreases |a|
  {
    if a == [] {
      assert a + b == b;
    } else {
      assert (a + b)[0] == a[0] && (a + b)[1..] == a[1..] + b;
      ReplayAppend(ReplayOne(mine, a[0], id), a[1..], b, id);
    }
  }

  lemma {:induction false} RemovalsOnlyRemove(mine: set<Route>, ws: seq<Route>, id: Uuid)
    ensures Replay(mine, Map(ws, RemoveBy(id)), id) <= mine
    ensures forall x, w :: x in Replay(mine, Map(ws, RemoveBy(id)), id) && w in ws ==> !SameSource(x, w)
    decreases |ws|
  {
    if ws != [] {
      RemovalsOnlyRemove(ReplayOne(mine, RemoveOp(id, ws[0]), id), ws[1..], id);
      assert forall w :: w in ws <==> w == ws[0] || w in ws[1..];
    }
  }

  /** Withdrawals apply after announcements: a prefix that one advertisement both announces
      and withdraws ends up without a route from that peer for the client. */
  lemma WithdrawalHasLastWord(s: Rib, ad: Advertisement, id: Uuid, w: Route, x: Route)
    requires RibInv(s) && Finishes(s, OpsOf(ad, id)) && w in Withdrawals(ad)
    ensures x in RoutesOf(Play(s, OpsOf(ad, id)), id, w.prefix) ==> x.peer != w.peer
  {
    hide RoutesOf, Play, Finishes, RibInv, HeldSet, Replay, Withdrawals, Announced;
    var mine := HeldSet(s, id);
    HeldSetAgrees(s, id);
    RunRefines(s, OpsOf(ad, id), id, mine);
    var inserts, removes := Map(Announced(ad), InsertBy(id)), Map(Withdrawals(ad), RemoveBy(id));
    ReplayAppend(mine, inserts, removes, id);
    RemovalsOnlyRemove(Replay(mine, inserts, id), Withdrawals(ad), id);
  }

  // ---- the class ----

  lemma MapAppend(a: seq<Route>, x: Route, f: Route -> RibOp)
    ensures Map(a + [x], f) == Map(a, f) + [f(x)]
  {
    if a == [] {
    } else {
      assert (a + [x])[0] == a[0] && (a + [x])[1..] == a[1..] + [x];
      MapAppend(a[1..], x, f);
    }
  }

  lemma PlayOne(s: Rib, ops: seq<RibOp>, op: RibOp)
    requires Finishes(s, ops + [op])
    ensures Finishes(s, ops) && Admits(Play(s, ops), op)
    ensures Play(s, ops + [op]) == Apply(Play(s, ops), op)
    ensures Reports(s, ops + [op]) == Join(Reports(s, ops), ReportOne(Play(s, ops), op))
  {
    PlayAppend(s, ops, [op]);
    hide Apply, Admits, ReportOne;
    var t := Play(s, ops);
    assert [op][1..] == [];
    assert Play(t, [op]) == Apply(t, op);
    assert Reports(t, [op]) == Join(ReportOne(t, op), NOTHING);
  }

  lemma PrefixFinishes(s: Rib, ops: seq<RibOp>, n: nat)
    requires Finishes(s, ops) && n <= |ops|
    ensures Finishes(s, ops[..n])
  {
    assert ops == ops[..n] + ops[n..];
    PlayAppend(s, ops[..n], ops[n..]);
  }

  lemma JoinAssoc(a: Changes, b: Changes, c: Changes)
    ensures Join(a, Join(b, c)) == Join(Join(a, b), c)
    ensures Join(a, NOTHING) == a
  {
  }

  lemma JoinReport(u: Changes, one: Changes)
    ensures Join(u, one) == Changes(u.announced + one.announced, u.withdrawn + one.withdrawn)
    ensures u.announced + [] == u.announced && u.withdrawn + [] == u.withdrawn
  {
  }

  lemma AdParts(s: Rib, ad: Advertisement, id: Uuid)
    requires Finishes(s, OpsOf(ad, id))
    ensures var ins, rem := Map(Announced(ad), InsertBy(id)), Map(Withdrawals(ad), RemoveBy(id));
            && Finishes(s, ins) && Finishes(Play(s, ins), rem)
            && Play(s, OpsOf(ad, id)) == Play(Play(s, ins), rem)
            && Reports(s, OpsOf(ad, id)) == Join(Reports(s, ins), Reports(Play(s, ins), rem))
  {
    PlayAppend(s, Map(Announced(ad), InsertBy(id)), Map(Withdrawals(ad), RemoveBy(id)));
  }

  lemma NoOps(s: Rib)
    ensures Finishes(s, []) && Play(s, []) == s && Reports(s, []) == NOTHING
    ensures forall f: Route -> RibOp :: Map<Route, RibOp>([], f) == []
    ensures forall id :: OpsOfAll([], id) == []
  {
  }

  lemma NextOp(s: Rib, routes: seq<Route>, f: Route -> RibOp, j: nat)
    requires j < |routes| && Finishes(s, Map(routes, f))
    ensures Finishes(s, Map(routes[..j], f)) && Finishes(s, Map(routes[..j + 1], f))
    ensures var t, op := Play(s, Map(routes[..j], f)), f(routes[j]);
            && Admits(t, op) && Play(s, Map(routes[..j + 1], f)) == Apply(t, op)
            && Reports(s, Map(routes[..j + 1], f)) == Join(Reports(s, Map(routes[..j], f)), ReportOne(t, op))
  {
    hide Apply, Admits, ReportOne, Play, Finishes, Reports;
    assert routes[..j + 1] == routes[..j] + [routes[j]];
    MapAppend(routes[..j], routes[j], f);
    MapCut(routes, f, j + 1);
    PrefixFinishes(s, Map(routes, f), j + 1);
    PlayOne(s, Map(routes[..j], f), f(routes[j]));
  }

  lemma {:induction false} MapCut(routes: seq<Route>, f: Route -> RibOp, n: nat)
    requires n <= |routes|
    ensures |Map(routes, f)| == |routes| && Map(routes[..n], f) == Map(routes, f)[..n]
  {
    if n == 0 {
      MapLength(routes, f);
    } else {
      MapCut(routes[1..], f, n - 1);
      assert routes[..n][1..] == routes[1..][..n - 1];
    }
  }

  /** One client of a table that other clients may share. `updates` is the pair of lists that
      waits to be collected. */
  class BgpRibInterface {
    var clientId: Uuid
    var rib: BgpRibs.BgpRib
    var updates: Changes

    ghost predicate Valid()
      reads this, rib, rib.Repr()
    {
      this !in rib.Repr() && rib.Valid()
    }

    constructor (rib: BgpRibs.BgpRib, id: Uuid)
      requires rib.Valid() && CanAcquire(rib.State().alloc, id)
      modifies rib.Repr()
      ensures Valid() && this.rib == rib && clientId == id && updates == NOTHING
      ensures rib.Repr() == old(rib.Repr()) && rib.State() == RegisterRouter(old(rib.State()), id)
    {
      hide RegisterRouter, RibInv, BgpRibs.BgpRib.Valid, BgpRibs.BgpRib.State;
      clientId, updates := id, NOTHING;
      this.rib := rib;
      new;
      rib.RegisterRouter(id);
    }

    /** Inserts the routes one by one and keeps what is reported. */
    method InsertAll(routes: seq<Route>)
      requires Valid() && Finishes(rib.State(), Map(routes, InsertBy(clientId)))
      modifies this`updates, rib.Repr()
      ensures Valid() && fresh(rib.Repr() - old(rib.Repr()))
      ensures rib.State() == Play(old(rib.State()), Map(routes, InsertBy(clientId)))
      ensures updates == Join(old(updates), Reports(old(rib.State()), Map(routes, InsertBy(clientId))))
    {
      hide Play, Finishes, Reports, Map, Join, InsertReport, RemoveReport, RibInv, BgpRibs.BgpRib.Valid,
           BgpRibs.BgpRib.State;
      ghost var s := rib.State();
      NoOps(s);
      JoinAssoc(updates, NOTHING, NOTHING);
      assert routes[..0] == [];
      for j := 0 to |routes|
        invariant Valid() && fresh(rib.Repr() - old(rib.Repr()))
        invariant Finishes(s, Map(routes[..j], InsertBy(clientId)))
        invariant rib.State() == Play(s, Map(routes[..j], InsertBy(clientId)))
        invariant updates == Join(old(updates), Reports(s, Map(routes[..j], InsertBy(clientId))))
      {
        ghost var acc := Reports(s, Map(routes[..j], InsertBy(clientId)));
        ghost var one := ReportOne(rib.State(), InsertOp(clientId, routes[j]));
        NextOp(s, routes, InsertBy(clientId), j);
        JoinAssoc(old(updates), acc, one);
        JoinReport(updates, one);
        var report := rib.InsertRoute(routes[j], clientId);
        if report.Some? {
          updates := updates.(announced := updates.announced + [report.value]);
        }
      }
      assert routes[..|routes|] == routes;
    }

    method RemoveAll(routes: seq<Route>)
      requires Valid() && Finishes(rib.State(), Map(routes, RemoveBy(clientId)))
      modifies this`updates, rib.Repr()
      ensures Valid() && fresh(rib.Repr() - old(rib.Repr()))
      ensures rib.State() == Play(old(rib.State()), Map(routes, RemoveBy(clientId)))
      ensures updates == Join(old(updates), Reports(old(rib.State()), Map(routes, RemoveBy(clientId))))
    {
      hide Play, Finishes, Reports, Map, Join, InsertReport, RemoveReport, RibInv, BgpRibs.BgpRib.Valid,
           BgpRibs.BgpRib.State;
      ghost var s := rib.State();
      NoOps(s);
      JoinAssoc(updates, NOTHING, NOTHING);
      assert routes[..0] == [];
      for j := 0 to |routes|
        invariant Valid() && fresh(rib.Repr() - old(rib.Repr()))
        invariant Finishes(s, Map(routes[..j], RemoveBy(clientId)))
        invariant rib.State() == Play(s, Map(routes[..j], RemoveBy(clientId)))
        invariant updates == Join(old(updates), Reports(s, Map(routes[..j], RemoveBy(clientId))))
      {
        ghost var acc := Reports(s, Map(routes[..j], RemoveBy(clientId)));
        ghost var one := ReportOne(rib.State(), RemoveOp(clientId, routes[j]));
        NextOp(s, routes, RemoveBy(clientId), j);
        JoinAssoc(old(updates), acc, one);
        JoinReport(updates, one);
        var report := rib.RemoveRoute(routes[j], clientId);
        if report.Some? {
          updates := updates.(withdrawn := updates.withdrawn + [report.value]);
        }
      }
      assert routes[..|routes|] == routes;
    }

    /** The locked section of `update` for one advertisement. */
    method Absorb(ad: Advertisement)
      requires Valid() && Finishes(rib.State(), OpsOf(ad, clientId))
      modifies this`updates, rib.Repr()
      ensures Valid() && fresh(rib.Repr() - old(rib.Repr()))
      ensures rib.State() == Play(old(rib.State()), OpsOf(ad, clientId))
      ensures updates == Join(old(updates), Reports(old(rib.State()), OpsOf(ad, clientId)))
    {
      hide Apply, Admits, ReportOne, Play, Finishes, Reports, Announced, Withdrawals, OpsOf, Join, Map, RibInv,
           BgpRibs.BgpRib.Valid, BgpRibs.BgpRib.State;
      ghost var s, u := rib.State(), updates;
      ghost var ins, rem := Map(Announced(ad), InsertBy(clientId)), Map(Withdrawals(ad), RemoveBy(clientId));
      AdParts(s, ad, clientId);
      JoinAssoc(u, Reports(s, ins), Reports(Play(s, ins), rem));
      var announced := GetAnnouncements(ad);
      InsertAll(announced);
      var withdrawn := GetWithdrawals(ad);
      RemoveAll(withdrawn);
    }

    /** `update`, with the table's lock obtained for every advertisement. */
    method Update(advertisements: seq<Advertisement>)
      requires Valid() && Finishes(rib.State(), OpsOfAll(advertisements, clientId))
      modifies this`updates, rib.Repr()
      ensures Valid() && fresh(rib.Repr() - old(rib.Repr()))
      ensures rib.State() == Play(old(rib.State()), OpsOfAll(advertisements, clientId))
      ensures updates == Join(old(updates), Reports(old(rib.State()), OpsOfAll(advertisements, clientId)))
    {
      hide Apply, Admits, ReportOne, Play, Finishes, Reports, OpsOf, OpsOfAll, RibInv, BgpRibs.BgpRib.Valid,
           BgpRibs.BgpRib.State;
      ghost var s := rib.State();
      NoOps(s);
      JoinAssoc(updates, NOTHING, NOTHING);
      assert advertisements[..0] == [];
      for i := 0 to |advertisements|
        invariant Valid() && fresh(rib.Repr() - old(rib.Repr()))
        invariant Finishes(s, OpsOfAll(advertisements[..i], clientId))
        invariant rib.State() == Play(s, OpsOfAll(advertisements[..i], clientId))
        invariant updates == Join(old(updates), Reports(s, OpsOfAll(advertisements[..i], clientId)))
      {
        NextAd(s, advertisements, clientId, i);
        Absorb(advertisements[i]);
      }
      assert advertisements[..|advertisements|] == advertisements;
    }

    /** `get_bestroute_updates` empties the pair it returns. */
    method TakeUpdates() returns (taken: Changes)
      modifies this`updates
      ensures taken == old(updates) && updates == NOTHING
    {
      taken := updates;
      updates := NOTHING;
    }
  }

  lemma NextAd(s: Rib, ads: seq<Advertisement>, id: Uuid, i: nat)
    requires i < |ads| && Finishes(s, OpsOfAll(ads, id))
    ensures Finishes(s, OpsOfAll(ads[..i], id)) && Finishes(s, OpsOfAll(ads[..i + 1], id))
    ensures var t, ops := Play(s, OpsOfAll(ads[..i], id)), OpsOf(ads[i], id);
            && Finishes(t, ops) && Play(s, OpsOfAll(ads[..i + 1], id)) == Play(t, ops)
            && Reports(s, OpsOfAll(ads[..i + 1], id)) == Join(Reports(s, OpsOfAll(ads[..i], id)), Reports(t, ops))
  {
    hide Play, Finishes, Reports, OpsOf;
    assert OpsOfAll([ads[i]], id) == OpsOf(ads[i], id) by {
      assert [ads[i]][1..] == [];
    }
    assert ads == ads[..i + 1] + ads[i + 1..];
    OpsOfAllAppend(ads[..i + 1], ads[i + 1..], id);
    PlayAppend(s, OpsOfAll(ads[..i + 1], id), OpsOfAll(ads[i + 1..], id));
    assert ads[..i + 1] == ads[..i] + [ads[i]];
    OpsOfAllAppend(ads[..i], [ads[i]], id);
    PlayAppend(s, OpsOfAll(ads[..i], id), OpsOf(ads[i], id));
  }
}
