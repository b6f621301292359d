/** The pipeline of one BGP process: receive, collect the changes, generate an advertisement,
    send (src/components/bgp/bgp_process.rs). */
module BgpProcesses {
  import opened Wrappers
  import opened RouterMaskMaps
  import opened IpNetworks
  import opened Routes
  import opened Ribs
  import opened RibRuns
  import opened Advertisements
  import opened RibUpdates
  import opened Interfaces
  import opened BgpSessions
  import BgpRibs

  // ---- the stages, as functions of the process's state ----

  /** `pending` waits in the RIB interface, `updates` has been collected from it. */
  datatype Process = Process(
    id: Uuid, ip: Printed, rib: Rib, pending: Changes, updates: Changes,
    ads: seq<Advertisement>, ends: seq<Option<End>>)

  /** The process's router has, or can get, its position in the table's masks. */
  predicate Runs(p: Process) {
    CanAcquire(p.rib.alloc, p.id) && AllOk(p.ends)
  }

  lemma {:induction false} OneClientFinishes(s: Rib, ops: seq<RibOp>, id: Uuid)
    requires CanAcquire(s.alloc, id)
    requires forall op <- ops :: (op.InsertOp? || op.RemoveOp?) && op.id == id
    ensures Finishes(s, ops) && CanAcquire(Play(s, ops).alloc, id)
    decreases |ops|
  {
    if ops != [] {
      assert ops[0] in ops;
      OneClientFinishes(Apply(s, ops[0]), ops[1..], id);
    }
  }

  lemma UpdateFinishes(s: Rib, ads: seq<Advertisement>, id: Uuid)
    requires CanAcquire(s.alloc, id)
    ensures Finishes(s, OpsOfAll(ads, id)) && CanAcquire(Play(s, OpsOfAll(ads, id)).alloc, id)
  {
    OpsAreMine(ads, id);
    OneClientFinishes(s, OpsOfAll(ads, id), id);
  }

  function ReceiveStage(p: Process): Process
    requires Runs(p)
  {
    Absorbed(p, Arrivals(p.ends)).(ends := Map(p.ends, AfterReceiveAt))
  }

  /** The table and the waiting changes after `update`. */
  function Absorbed(p: Process, ads: seq<Advertisement>): Process
    requires CanAcquire(p.rib.alloc, p.id)
  {
    UpdateFinishes(p.rib, ads, p.id);
    p.(rib := Play(p.rib, OpsOfAll(ads, p.id)), pending := Join(p.pending, Reports(p.rib, OpsOfAll(ads, p.id))))
  }

  function CollectStage(p: Process): Process {
    p.(updates := p.pending, pending := NOTHING)
  }

  function GenerateStage(p: Process): Process {
    p.(ads := p.ads + [Generated(p.ip, p.updates.announced, p.updates.withdrawn)])
  }

  function SendStage(p: Process): Process
    requires Runs(p)
  {
    p.(ends := seq(|p.ends|, i requires 0 <= i < |p.ends| => AfterSendAt(p.ends[i], p.ads)), ads := [])
  }

  lemma {:induction false} ReceivedOk(ends: seq<Option<End>>)
    requires AllOk(ends)
    ensures AllOk(Map(ends, AfterReceiveAt)) && |Map(ends, AfterReceiveAt)| == |ends|
  {
    if ends != [] {
      assert Ok(ends[0]);
      if ends[0].Some? {
        PullKeepsBounds(ends[0].value);
      }
      assert forall i :: 0 <= i < |ends[1..]| ==> ends[1..][i] == ends[i + 1];
      ReceivedOk(ends[1..]);
    }
  }

  lemma ReceiveRuns(p: Process)
    requires Runs(p)
    ensures Runs(ReceiveStage(p))
  {
    UpdateFinishes(p.rib, Arrivals(p.ends), p.id);
    ReceivedOk(p.ends);
  }

  /** One cycle of `work` for one process. */
  function Cycle(p: Process): Process
    requires Runs(p)
  {
    ReceiveRuns(p);
    SendStage(GenerateStage(CollectStage(ReceiveStage(p))))
  }

  lemma CycleRuns(p: Process)
    requires Runs(p)
    ensures Runs(Cycle(p))
  {
    ReceiveRuns(p);
    var q := GenerateStage(CollectStage(ReceiveStage(p)));
    forall i | 0 <= i < |q.ends|
      ensures Ok(AfterSendAt(q.ends[i], q.ads))
    {
      assert Ok(q.ends[i]);
      if q.ends[i].Some? {
        SendKeepsBounds(q.ends[i].value, q.ads);
      }
    }
  }

  // ---- any number of cycles ----

  /** The advertisement a cycle generates. */
  function Advertised(p: Process): Advertisement
    requires Runs(p)
  {
    var q := ReceiveStage(p);
    Generated(q.ip, q.pending.announced, q.pending.withdrawn)
  }

  /** Between two cycles the neighbours do what they like with the far ends of the links; the
      cycle starts from the ends it finds. */
  predicate AllRun(worlds: seq<seq<Option<End>>>) {
    forall i :: 0 <= i < |worlds| ==> AllOk(worlds[i])
  }

  /** The advertisements of the cycles that start from the given ends. */
  function Generates(p: Process, worlds: seq<seq<Option<End>>>): seq<Advertisement>
    requires Runs(p) && AllRun(worlds)
    decreases |worlds|
  {
    if worlds == [] then []
    else
      var q := p.(ends := worlds[0]);
      CycleRuns(q);
      [Advertised(q)] + Generates(Cycle(q), worlds[1..])
  }

  function Announces(ads: seq<Advertisement>): seq<Route> {
    Flatten(Map(ads, Announced))
  }

  function Retracts(ads: seq<Advertisement>): seq<Route> {
    Flatten(Map(ads, Withdrawals))
  }

  /** What the cycles receive, cycle by cycle. */
  function Batches(worlds: seq<seq<Option<End>>>): seq<seq<Advertisement>> {
    Map(worlds, Arrivals)
  }

  lemma BatchesCut(p: Process, worlds: seq<seq<Option<End>>>)
    requires Runs(p) && worlds != []
    ensures Finishes(p.rib, OpsOfAll(Flatten(Batches(worlds)), p.id))
    ensures var ops := OpsOfAll(Arrivals(worlds[0]), p.id);
            && Finishes(p.rib, ops) && Finishes(Play(p.rib, ops), OpsOfAll(Flatten(Batches(worlds[1..])), p.id))
            && BatchReports(p.rib, Batches(worlds), p.id)
               == [Reports(p.rib, ops)] + BatchReports(Play(p.rib, ops), Batches(worlds[1..]), p.id)
  {
    UpdateFinishes(p.rib, Flatten(Batches(worlds)), p.id);
    hide Play, Finishes, Reports, OpsOfAll;
    FlattenCut(p.rib, Batches(worlds), p.id);
    assert Batches(worlds)[0] == Arrivals(worlds[0]) && Batches(worlds)[1..] == Batches(worlds[1..]);
  }

  lemma {:induction false} MapConcat<T, U>(a: seq<T>, b: seq<T>, f: T -> U)
    ensures Map(a + b, f) == Map(a, f) + Map(b, f)
  {
    if a == [] {
      assert a + b == b;
    } else {
      assert (a + b)[0] == a[0] && (a + b)[1..] == a[1..] + b;
      MapConcat(a[1..], b, f);
    }
  }

  /** A cycle offers every session the advertisements the process had and the new one, after that
      session has been received from; nothing is offered twice, since none is kept. */
  lemma CycleSends(p: Process, i: nat)
    requires Runs(p) && i < |p.ends|
    ensures Ok(AfterReceiveAt(p.ends[i])) && Runs(Cycle(p)) && |Cycle(p).ends| == |p.ends|
    ensures Cycle(p).ends[i] == AfterSendAt(AfterReceiveAt(p.ends[i]), p.ads + [Advertised(p)])
    ensures Cycle(p).ads == [] && Cycle(p).updates == ReceiveStage(p).pending
  {
    CycleRuns(p);
    ReceiveRuns(p);
    ReceivedOk(p.ends);
    hide Play, Reports, OpsOfAll, Generated, Finishes, CanAcquire, AfterSendAt, AfterReceiveAt;
    MapAt(p.ends, AfterReceiveAt, i);
  }

  lemma {:induction false} MapAt<T, U>(s: seq<T>, f: T -> U, i: nat)
    requires i < |s|
    ensures |Map(s, f)| == |s| && Map(s, f)[i] == f(s[i])
    decreases |s|
  {
    if i != 0 {
      MapAt(s[1..], f, i - 1);
    } else if |s| > 1 {
      MapAt(s[1..], f, 0);
    }
  }

  /** What a cycle leaves behind, and what it advertises. */
  lemma CycleLeaves(p: Process)
    requires Runs(p) && p.pending == NOTHING
    ensures Runs(Cycle(p)) && Cycle(p).id == p.id && Cycle(p).ip == p.ip && Cycle(p).pending == NOTHING
    ensures var ops := OpsOfAll(Arrivals(p.ends), p.id);
            && Finishes(p.rib, ops) && Cycle(p).rib == Play(p.rib, ops)
            && Announced(Advertised(p)) == Map(Reports(p.rib, ops).announced, AsSeenFrom(p.ip))
            && Withdrawals(Advertised(p)) == Map(Reports(p.rib, ops).withdrawn, AsWithdrawnBy(p.ip))
  {
    CycleRuns(p);
    UpdateFinishes(p.rib, Arrivals(p.ends), p.id);
    hide Play, Reports, OpsOfAll, Announced, Withdrawals, Generated, Finishes, CanAcquire;
    var report := Reports(p.rib, OpsOfAll(Arrivals(p.ends), p.id));
    assert Join(NOTHING, report) == report;
    GeneratedAnnounces(p.ip, report.announced, report.withdrawn);
    GeneratedWithdraws(p.ip, report.announced, report.withdrawn);
  }

  lemma {:induction false} CyclesReport(p: Process, worlds: seq<seq<Option<End>>>)
    requires Runs(p) && AllRun(worlds) && p.pending == NOTHING
    ensures Finishes(p.rib, OpsOfAll(Flatten(Batches(worlds)), p.id))
    ensures Announces(Generates(p, worlds))
         == Map(JoinAll(BatchReports(p.rib, Batches(worlds), p.id)).announced, AsSeenFrom(p.ip))
    ensures Retracts(Generates(p, worlds))
         == Map(JoinAll(BatchReports(p.rib, Batches(worlds), p.id)).withdrawn, AsWithdrawnBy(p.ip))
    decreases |worlds|
  {
    hide Play, Reports, OpsOfAll, Announced, Withdrawals, Finishes, CanAcquire, Cycle, Advertised;
    if worlds == [] {
      UpdateFinishes(p.rib, Flatten(Batches(worlds)), p.id);
    } else {
      var q := p.(ends := worlds[0]);
      CycleLeaves(q);
      BatchesCut(p, worlds);
      var ops := OpsOfAll(Arrivals(worlds[0]), p.id);
      CyclesReport(Cycle(q), worlds[1..]);
      var rest := JoinAll(BatchReports(Play(p.rib, ops), Batches(worlds[1..]), p.id));
      MapConcat(Reports(p.rib, ops).announced, rest.announced, AsSeenFrom(p.ip));
      MapConcat(Reports(p.rib, ops).withdrawn, rest.withdrawn, AsWithdrawnBy(p.ip));
      GeneratesFirst(p, worlds);
      ReadsFirst(Advertised(q), Generates(Cycle(q), worlds[1..]));
    }
  }

  lemma GeneratesFirst(p: Process, worlds: seq<seq<Option<End>>>)
    requires Runs(p) && AllRun(worlds) && worlds != []
    ensures var q := p.(ends := worlds[0]);
            && Runs(q) && Runs(Cycle(q)) && AllRun(worlds[1..])
            && Generates(p, worlds) == [Advertised(q)] + Generates(Cycle(q), worlds[1..])
  {
    hide Announced, Arrivals, Cycle, Advertised, CanAcquire;
    CycleRuns(p.(ends := worlds[0]));
  }

  lemma ReadsFirst(ad: Advertisement, more: seq<Advertisement>)
    ensures Announces([ad] + more) == Announced(ad) + Announces(more)
    ensures Retracts([ad] + more) == Withdrawals(ad) + Retracts(more)
  {
    hide Announced, Withdrawals;
    assert ([ad] + more)[1..] == more;
  }

  /** Exactly-once reporting, end to end: whatever the neighbours do between the cycles, what a
      neighbour reads from the advertisements of all cycles is, in order and each once, the
      received routes that nothing stored beat when they were inserted, as routes of this
      process with an empty path; and what it is told to remove is the received withdrawals of
      routes that were the best of all when they were removed. */
  lemma {:induction false} EachMaximalRouteOnce(p: Process, worlds: seq<seq<Option<End>>>)
    requires Runs(p) && AllRun(worlds) && p.pending == NOTHING
    ensures Finishes(p.rib, OpsOfAll(Flatten(Batches(worlds)), p.id))
    ensures Announces(Generates(p, worlds))
         == Map(MaximalWhenInserted(p.rib, OpsOfAll(Flatten(Batches(worlds)), p.id)), AsSeenFrom(p.ip))
    ensures Retracts(Generates(p, worlds))
         == Map(BestWhenRemoved(p.rib, OpsOfAll(Flatten(Batches(worlds)), p.id)), AsWithdrawnBy(p.ip))
  {
    CyclesReport(p, worlds);
    ExactlyOnce(p.rib, Batches(worlds), p.id);
  }

  // ---- the class ----

  lemma FreshAdmits(id: Uuid)
    ensures CanAcquire(FRESH.alloc, id) && CanAcquire(RegisterRouter(FRESH, id).alloc, id)
  {
    assert FirstFree({}, 0) == 0;
  }

  class BgpProcess {
    var sessions: seq<BgpSession>
    var ip: Printed
    var ribInterface: BgpRibInterface
    var bestRouteUpdates: Changes
    var advertisement: seq<Advertisement>

    /** The objects that the process refers to, and those that these refer to. */
    ghost function Outer(): set<object>
      reads this
    {
      {ribInterface as object} + set s: object | s in sessions
    }

    ghost function Inner(): set<object>
      reads this, Outer()
    {
      {ribInterface.rib as object} + InterfacesOf(sessions)
    }

    /** The objects of the process other than its sessions. */
    ghost function Core(): set<object>
      reads this, Outer(), Inner()
    {
      {this, ribInterface} + ribInterface.rib.Repr()
    }

    ghost function Repr(): set<object>
      reads this, Outer(), Inner()
    {
      Core() + Footprint(sessions)
    }

    ghost function View(): Process
      reads this, Outer(), Inner(), Repr()
    {
      Process(ribInterface.clientId, ip, ribInterface.rib.State(), ribInterface.updates, bestRouteUpdates,
              advertisement, Views(sessions))
    }

    ghost predicate Valid()
      reads this, Outer(), Inner(), Repr()
    {
      && Apart(sessions) && Core() !! Footprint(sessions) && this !in ribInterface.rib.Repr()
      && ribInterface.Valid() && CanAcquire(ribInterface.rib.State().alloc, ribInterface.clientId)
    }

    lemma Parts()
      ensures InterfacesOf(sessions) <= Footprint(sessions)
      ensures forall s <- sessions :: s in Footprint(sessions)
      ensures ribInterface.rib in ribInterface.rib.Repr()
      ensures Apart(sessions) ==> AllOk(Views(sessions))
      ensures allocated(InterfacesOf(sessions)) && allocated(Footprint(sessions)) && allocated(ribInterface.rib.Repr())
    {
      FootprintOwns(sessions);
    }

    /** A process starts with a table of its own, registered under an identifier of its own. */
    constructor (ip: Printed, ownId: Uuid)
      ensures Valid() && fresh(Repr()) && sessions == []
      ensures View() == Process(ownId, ip, RegisterRouter(FRESH, ownId), NOTHING, NOTHING, [], [])
    {
      hide Views, Footprint, Apart, InterfacesOf, BgpRibs.BgpRib.State, BgpRibs.BgpRib.Valid, BgpRibs.BgpRib.Repr,
           CanAcquire, RegisterRouter;
      sessions, advertisement, bestRouteUpdates := [], [], NOTHING;
      this.ip := ip;
      var rib := new BgpRibs.BgpRib();
      FreshAdmits(ownId);
      var table := new BgpRibInterface(rib, ownId);
      assert allocated(rib.Repr());
      ribInterface := table;
      new;
      NoSessions();
      Parts();
    }

    /** The router's identifier replaces the first one, which keeps its position. */
    method SetRouterId(id: Uuid)
      requires Valid() && CanAcquire(View().rib.alloc, id)
      modifies ribInterface`clientId
      ensures Valid() && Repr() == old(Repr())
      ensures View() == old(View()).(id := id)
    {
      hide Views, Footprint, Apart, InterfacesOf, BgpRibs.BgpRib.State, BgpRibs.BgpRib.Valid, BgpRibs.BgpRib.Repr,
           CanAcquire;
      Parts();
      ribInterface.clientId := id;
    }

    method AddSession(session: BgpSession)
      requires Valid() && session.Valid() && session.Repr() !! Repr()
      modifies this`sessions
      ensures Valid() && sessions == old(sessions) + [session] && Repr() == old(Repr()) + session.Repr()
      ensures View() == old(View()).(ends := old(View()).ends + [session.View()])
    {
      hide Views, Footprint, Apart, InterfacesOf, BgpRibs.BgpRib.State, BgpRibs.BgpRib.Valid, BgpRibs.BgpRib.Repr,
           CanAcquire, BgpSession.Repr, BgpSession.View, BgpSession.Valid;
      Parts();
      OneMore(sessions, session);
      FootprintOwns(sessions + [session]);
      sessions := sessions + [session];
    }

    method Receive()
      requires Valid()
      modifies ribInterface`updates, ribInterface.rib.Repr(), Footprint(sessions)
      ensures Valid() && fresh(Repr() - old(Repr()))
      ensures View() == ReceiveStage(old(View()))
    {
      hide Views, Footprint, Apart, InterfacesOf, BgpRibs.BgpRib.State, BgpRibs.BgpRib.Valid, BgpRibs.BgpRib.Repr,
           CanAcquire, Play, Finishes, Reports, OpsOfAll, Join, AllOk;
      Parts();
      var all := ReceiveAll(sessions);
      Parts();
      UpdateFinishes(ribInterface.rib.State(), all, ribInterface.clientId);
      ghost var mine, theirs := ribInterface.rib.Repr(), Footprint(sessions);
      assert mine == old(ribInterface.rib.Repr());
      label before:
      ribInterface.Update(all);
      forall o | o in ribInterface.rib.Repr() && o !in mine
        ensures fresh(o)
      {
        assert fresh@before(o);
      }
    }

    method GetBestRouteChanges()
      requires Valid()
      modifies this`bestRouteUpdates, ribInterface`updates
      ensures Valid() && Repr() == old(Repr())
      ensures View() == CollectStage(old(View()))
    {
      hide Views, Footprint, Apart, InterfacesOf, BgpRibs.BgpRib.State, BgpRibs.BgpRib.Valid, BgpRibs.BgpRib.Repr,
           CanAcquire;
      Parts();
      bestRouteUpdates := ribInterface.TakeUpdates();
    }

    method GenerateAdvertisement()
      requires Valid()
      modifies this`advertisement
      ensures Valid() && Repr() == old(Repr())
      ensures View() == GenerateStage(old(View()))
    {
      hide Views, Footprint, Apart, InterfacesOf, BgpRibs.BgpRib.State, BgpRibs.BgpRib.Valid, BgpRibs.BgpRib.Repr,
           CanAcquire, Map;
      Parts();
      var announcements := Map(bestRouteUpdates.announced, AnnounceOne);
      var withdrawals := Map(bestRouteUpdates.withdrawn, PrefixOf);
      var ad := Advertisement(Some(ip.address), ip.text, None, Some(announcements), Some(withdrawals));
      advertisement := advertisement + [ad];
    }

    method Send()
      requires Valid()
      modifies this`advertisement, Footprint(sessions)
      ensures Valid() && Repr() == old(Repr())
      ensures View() == SendStage(old(View()))
    {
      hide Views, Footprint, Apart, InterfacesOf, BgpRibs.BgpRib.State, BgpRibs.BgpRib.Valid, BgpRibs.BgpRib.Repr,
           CanAcquire;
      Parts();
      SendAll(sessions, advertisement);
      Parts();
      assert Views(sessions) == SendStage(old(View())).ends;
      advertisement := [];
    }
  }
}
