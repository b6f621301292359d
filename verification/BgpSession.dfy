/** BGP sessions (src/components/bgp/bgp_session.rs): the interface operations combined, and what
    they make of a pair of sessions on one link. */
module BgpSessions {
  import opened Wrappers
  import opened Links
  import opened LinkRuns
  import opened Advertisements
  import opened Interfaces

  datatype SessionError = InterfaceNotSet | InterfaceFailed(error: InterfaceError)

  class BgpSession {
    var interface: Interface?

    ghost function Repr(): set<object>
      reads this, interface
    {
      {this} + if interface != null then interface.Repr() else {}
    }

    ghost function View(): Option<End>
      reads Repr()
    {
      if interface != null then Some(interface.View()) else None
    }

    ghost predicate Valid()
      reads Repr()
    {
      Ok(View())
    }

    constructor ()
      ensures Valid() && Repr() == {this} && View() == None
    {
      interface := null;
    }

    method SetInterface(interface: Interface)
      modifies this
      ensures this.interface == interface
    {
      this.interface := interface;
    }

    method Receive() returns (ads: seq<Advertisement>, error: Option<SessionError>)
      requires Valid()
      modifies Repr() - {this}
      ensures Valid() && Repr() == old(Repr())
      ensures error == if interface == null then Some(InterfaceNotSet) else None
      ensures error.Some? ==> ads == []
      ensures ads == ArrivingAt(old(View())) && View() == AfterReceiveAt(old(View()))
    {
      hide Pulled, EndOk;
      if interface == null {
        return [], Some(InterfaceNotSet);
      }
      interface.Receive();
      ads := interface.GetIncomingAdvertisements();
      error := None;
    }

    /** What fits is sent even when the push reports an overflow. */
    method Send(ads: seq<Advertisement>) returns (error: Option<SessionError>)
      requires Valid()
      modifies Repr() - {this}
      ensures Valid() && Repr() == old(Repr())
      ensures interface == null <==> error == Some(InterfaceNotSet)
      ensures error == Some(InterfaceFailed(OutgoingBufferCapacityExceeded))
         <==> interface != null && interface.outChannel != null
              && old(if interface == null then 0 else |interface.outgoing|) + |ads|
                 > old(if interface == null then 0 else interface.outgoingCapacity)
      ensures View() == AfterSendAt(old(View()), ads)
    {
      hide Pushed, Flushed, EndOk;
      if interface == null {
        return Some(InterfaceNotSet);
      }
      var pushed := interface.PushOutgoingAdvertisements(ads);
      assert pushed.Some? ==> pushed.value.OutgoingBufferCapacityExceeded?;
      interface.Send();
      error := if pushed.Some? then Some(InterfaceFailed(pushed.value)) else None;
    }
  }

  predicate Ok(v: Option<End>) {
    v.Some? ==> EndOk(v.value)
  }

  function ArrivingAt(v: Option<End>): seq<Advertisement> {
    if v.Some? then Arriving(v.value) else []
  }

  function AfterReceiveAt(v: Option<End>): Option<End> {
    if v.Some? then Some(AfterReceive(v.value)) else v
  }

  function AfterSendAt(v: Option<End>, ads: seq<Advertisement>): Option<End>
    requires Ok(v)
  {
    if v.Some? then Some(AfterSend(v.value, ads)) else v
  }

  function Arrivals(ends: seq<Option<End>>): seq<Advertisement> {
    if ends == [] then [] else ArrivingAt(ends[0]) + Arrivals(ends[1..])
  }

  lemma {:induction false} ArrivalsSnoc(ends: seq<Option<End>>, i: nat)
    requires i < |ends|
    ensures Arrivals(ends[..i + 1]) == Arrivals(ends[..i]) + ArrivingAt(ends[i])
  {
    hide ArrivingAt;
    if i == 0 {
      assert ends[..1] == [ends[0]] && [ends[0]][1..] == [];
    } else {
      ArrivalsSnoc(ends[1..], i - 1);
      assert ends[..i + 1][1..] == ends[1..][..i] && ends[..i][1..] == ends[1..][..i - 1];
    }
  }

  // ---- all sessions of a process ----

  ghost function InterfacesOf(sessions: seq<BgpSession>): set<object>
    reads sessions
  {
    set s | s in sessions && s.interface != null :: s.interface
  }

  ghost function Footprint(sessions: seq<BgpSession>): set<object>
    reads sessions, InterfacesOf(sessions)
  {
    set s, o | s in sessions && o in s.Repr() :: o
  }

  ghost function Views(sessions: seq<BgpSession>): (ends: seq<Option<End>>)
    reads sessions, InterfacesOf(sessions), Footprint(sessions)
    ensures |ends| == |sessions|
  {
    seq(|sessions|, i requires 0 <= i < |sessions| reads sessions, InterfacesOf(sessions), Footprint(sessions)
                    => sessions[i].View())
  }

  ghost function Reprs(sessions: seq<BgpSession>): (reprs: seq<set<object>>)
    reads sessions, InterfacesOf(sessions)
    ensures |reprs| == |sessions|
  {
    seq(|sessions|, i requires 0 <= i < |sessions| reads sessions, InterfacesOf(sessions) => sessions[i].Repr())
  }

  ghost predicate Separate(reprs: seq<set<object>>) {
    forall i, j :: 0 <= i < |reprs| && 0 <= j < |reprs| && i != j ==> reprs[i] !! reprs[j]
  }

  predicate AllOk(ends: seq<Option<End>>) {
    forall i :: 0 <= i < |ends| ==> Ok(ends[i])
  }

  /** No two sessions share a channel, an interface or themselves. */
  ghost predicate Apart(sessions: seq<BgpSession>)
    reads sessions, InterfacesOf(sessions), Footprint(sessions)
  {
    AllOk(Views(sessions)) && Separate(Reprs(sessions))
  }

  lemma FootprintIs(sessions: seq<BgpSession>)
    ensures forall i :: 0 <= i < |sessions| ==> Reprs(sessions)[i] <= Footprint(sessions)
    ensures Footprint(sessions) == set i, o | 0 <= i < |sessions| && o in Reprs(sessions)[i] :: o
  {
    hide BgpSession.Repr;
    forall o: object | o in Footprint(sessions)
      ensures exists i :: 0 <= i < |sessions| && o in Reprs(sessions)[i]
    {
      var s :| s in sessions && o in s.Repr();
      var i :| 0 <= i < |sessions| && sessions[i] == s;
      assert o in Reprs(sessions)[i];
    }
  }

  lemma FootprintOwns(sessions: seq<BgpSession>)
    ensures InterfacesOf(sessions) <= Footprint(sessions)
    ensures forall s <- sessions :: s in Footprint(sessions)
  {
    forall o: object | o in InterfacesOf(sessions) ensures o in Footprint(sessions) {
      var s :| s in sessions && s.interface == o;
      assert o in s.Repr();
    }
    forall s | s in sessions ensures s in Footprint(sessions) {
      assert s in s.Repr();
    }
  }

  lemma ReprHas(s: BgpSession)
    ensures s in s.Repr() && (s.interface != null ==> s.interface in s.Repr())
  {
  }

  /** Sessions with the objects they had are as far apart as they were. */
  lemma StillApart(sessions: seq<BgpSession>, i: nat, reprs: seq<set<object>>, ends: seq<Option<End>>)
    requires i < |sessions| == |reprs| == |ends| && Separate(reprs) && AllOk(ends) && sessions[i].Valid()
    requires sessions[i].Repr() == reprs[i]
    requires forall j :: 0 <= j < |sessions| && j != i ==>
               sessions[j].Repr() == reprs[j] && sessions[j].View() == ends[j]
    ensures Apart(sessions) && Reprs(sessions) == reprs
    ensures Views(sessions) == ends[i := sessions[i].View()]
    ensures Footprint(sessions) == set i, o | 0 <= i < |sessions| && o in reprs[i] :: o
  {
    hide BgpSession.View, BgpSession.Repr, Footprint, Ok;
    assert Views(sessions) == ends[i := sessions[i].View()];
    assert Reprs(sessions) == reprs;
    FootprintIs(sessions);
  }

  lemma OneMore(sessions: seq<BgpSession>, session: BgpSession)
    requires Apart(sessions) && session.Valid() && session.Repr() !! Footprint(sessions)
    ensures Apart(sessions + [session])
    ensures Views(sessions + [session]) == Views(sessions) + [session.View()]
    ensures Footprint(sessions + [session]) == Footprint(sessions) + session.Repr()
  {
    hide BgpSession.View, BgpSession.Repr, Footprint, Ok;
    var all := sessions + [session];
    FootprintIs(sessions);
    FootprintIs(all);
    assert Views(all) == Views(sessions) + [session.View()];
    assert Reprs(all) == Reprs(sessions) + [session.Repr()];
    assert forall i :: 0 <= i < |sessions| ==> Reprs(all)[i] == Reprs(sessions)[i];
    assert Reprs(all)[|sessions|] == session.Repr();
  }

  lemma NoSessions()
    ensures Apart([]) && Views([]) == [] && Footprint([]) == {}
  {
  }

  /** One session of several receives: the others are untouched. */
  method ReceiveFrom(sessions: seq<BgpSession>, i: nat) returns (ads: seq<Advertisement>, error: Option<SessionError>)
    requires Apart(sessions) && i < |sessions|
    modifies Footprint(sessions)
    ensures Apart(sessions) && Footprint(sessions) == old(Footprint(sessions))
    ensures Views(sessions) == old(Views(sessions))[i := AfterReceiveAt(old(Views(sessions))[i])]
    ensures ads == ArrivingAt(old(Views(sessions))[i]) && (error.Some? ==> ads == [])
  {
    hide AfterReceiveAt, ArrivingAt, BgpSession.View, Footprint, Ok;
    ghost var ends, reprs := Views(sessions), Reprs(sessions);
    FootprintIs(sessions);
    forall j | 0 <= j < |sessions|
      ensures sessions[j].Repr() == reprs[j] && sessions[j] in reprs[j] && allocated(reprs[j])
      ensures sessions[j].interface != null ==> sessions[j].interface in reprs[j]
    {
      ReprHas(sessions[j]);
    }
    assert reprs[i] <= Footprint(sessions) && Ok(ends[i]);
    ads, error := sessions[i].Receive();
    forall j | 0 <= j < |sessions| && j != i
      ensures sessions[j].Repr() == reprs[j] && sessions[j].View() == ends[j]
    {
      assert reprs[j] !! reprs[i];
      assert old(sessions[j].Repr()) == reprs[j] && old(sessions[j].View()) == ends[j];
    }
    hide *;
    StillApart(sessions, i, reprs, ends);
  }

  method ReceiveAll(sessions: seq<BgpSession>) returns (all: seq<Advertisement>)
    requires Apart(sessions)
    modifies Footprint(sessions)
    ensures Apart(sessions) && Footprint(sessions) == old(Footprint(sessions))
    ensures all == Arrivals(old(Views(sessions)))
    ensures Views(sessions) == Map(old(Views(sessions)), AfterReceiveAt)
  {
    hide AfterReceiveAt, ArrivingAt, Apart, Views, Footprint, InterfacesOf, BgpSession.Repr;
    ghost var ends := Views(sessions);
    all := [];
    for i := 0 to |sessions|
      invariant Footprint(sessions) == old(Footprint(sessions)) && Apart(sessions)
      invariant all == Arrivals(ends[..i])
      invariant forall j :: 0 <= j < i ==> Views(sessions)[j] == AfterReceiveAt(ends[j])
      invariant forall j :: i <= j < |sessions| ==> Views(sessions)[j] == ends[j]
    {
      ArrivalsSnoc(ends, i);
      var ads, error := ReceiveFrom(sessions, i);
      if error.None? {
        all := all + ads;
      }
    }
    assert ends[..|sessions|] == ends;
    MapPointwise(ends, AfterReceiveAt, Views(sessions));
  }

  ghost predicate AfterSends(before: seq<Option<End>>, after: seq<Option<End>>, ads: seq<Advertisement>)
    requires AllOk(before)
  {
    |after| == |before| && forall i :: 0 <= i < |before| ==> after[i] == AfterSendAt(before[i], ads)
  }

  method SendTo(sessions: seq<BgpSession>, i: nat, ads: seq<Advertisement>)
    requires Apart(sessions) && i < |sessions|
    modifies Footprint(sessions)
    ensures Apart(sessions) && Footprint(sessions) == old(Footprint(sessions))
    ensures Views(sessions) == old(Views(sessions))[i := AfterSendAt(old(Views(sessions))[i], ads)]
  {
    hide AfterSendAt, BgpSession.View, Footprint, Ok;
    ghost var ends, reprs := Views(sessions), Reprs(sessions);
    FootprintIs(sessions);
    forall j | 0 <= j < |sessions|
      ensures sessions[j].Repr() == reprs[j] && sessions[j] in reprs[j] && allocated(reprs[j])
      ensures sessions[j].interface != null ==> sessions[j].interface in reprs[j]
    {
      ReprHas(sessions[j]);
    }
    assert reprs[i] <= Footprint(sessions) && Ok(ends[i]);
    var error := sessions[i].Send(ads);
    forall j | 0 <= j < |sessions| && j != i
      ensures sessions[j].Repr() == reprs[j] && sessions[j].View() == ends[j]
    {
      assert reprs[j] !! reprs[i];
      assert old(sessions[j].Repr()) == reprs[j] && old(sessions[j].View()) == ends[j];
    }
    hide *;
    StillApart(sessions, i, reprs, ends);
  }

  /** Every session gets its own copy of the list; an error on one does not stop the others. */
  method SendAll(sessions: seq<BgpSession>, ads: seq<Advertisement>)
    requires Apart(sessions)
    modifies Footprint(sessions)
    ensures Apart(sessions) && Footprint(sessions) == old(Footprint(sessions))
    ensures AfterSends(old(Views(sessions)), Views(sessions), ads)
  {
    hide AfterSendAt, Views, Footprint, InterfacesOf, Separate, Ok, BgpSession.Repr;
    ghost var ends := Views(sessions);
    for i := 0 to |sessions|
      invariant Footprint(sessions) == old(Footprint(sessions)) && Apart(sessions)
      invariant forall j :: 0 <= j < i ==> Views(sessions)[j] == AfterSendAt(ends[j], ads)
      invariant forall j :: i <= j < |sessions| ==> Views(sessions)[j] == ends[j]
    {
      SendTo(sessions, i, ads);
    }
  }

  // ---- a pair of sessions ----

  /** The first end sends to the second; the buffers have the sizes they were given. */
  predicate Joined(a: End, b: End) {
    && EndOk(a) && EndOk(b)
    && a.outbound.Some? && a.outbound == b.inbound && !a.loopback && !b.loopback
    && a.port.outgoingCapacity == a.port.sizeOutgoing && b.port.incomingCapacity == b.port.sizeIncoming
  }

  function ConfigOf(a: End, b: End): Config<Advertisement>
    requires Joined(a, b)
  {
    Config(a.port.outgoingCapacity, a.outbound.value.bound, b.port.incomingCapacity, a.port.outFilter, b.port.inFilter)
  }

  function LinkOf(a: End, b: End, delivered: seq<Advertisement>): Link<Advertisement>
    requires Joined(a, b)
  {
    Link(a.port.outgoing, a.outbound.value.messages, b.port.incoming, delivered)
  }

  /** Two sessions, and everything each of them has received. */
  datatype Pair = Pair(first: End, second: End, toFirst: seq<Advertisement>, toSecond: seq<Advertisement>)

  datatype Side = First | Second

  /** Either session sends or receives. */
  datatype SessionOp = SendAds(side: Side, ads: seq<Advertisement>) | ReceiveAds(side: Side)

  /** Each session sends where the other receives. */
  predicate Linked(p: Pair) {
    Joined(p.first, p.second) && Joined(p.second, p.first)
  }

  function Flip(p: Pair): Pair {
    Pair(p.second, p.first, p.toSecond, p.toFirst)
  }

  function FlipOp(op: SessionOp): SessionOp {
    op.(side := if op.side == First then Second else First)
  }

  /** An operation of the first session; the second sees the channels change. */
  function FirstDoes(p: Pair, op: SessionOp): Pair
    requires Linked(p)
  {
    match op
    case SendAds(_, ads) =>
      var a := AfterSend(p.first, ads);
      p.(first := a, second := p.second.(inbound := a.outbound))
    case ReceiveAds(_) =>
      var a := AfterReceive(p.first);
      Pair(a, p.second.(outbound := a.inbound), p.toFirst + Arriving(p.first), p.toSecond)
  }

  function Operate(p: Pair, op: SessionOp): Pair
    requires Linked(p)
  {
    if op.side == First then FirstDoes(p, op) else Flip(FirstDoes(Flip(p), op))
  }

  /** What an operation is on the link from the first session to the second. */
  function LinkOps(op: SessionOp): seq<LinkOp<Advertisement>> {
    match op
    case SendAds(First, ads) => [Push(ads), LinkOp.Send]
    case ReceiveAds(Second) => [LinkOp.Receive, Take]
    case _ => []
  }

  lemma EmptySend(a: End, ads: seq<Advertisement>)
    requires EndOk(a) && a.outbound.Some?
    ensures AfterSend(a, ads).outbound.value.messages
         == Transmitted(Pushed(a, ads).port.outgoing, a.outbound.value.messages, a.outbound.value.bound,
                        a.port.outFilter)
  {
  }

  function ForthConfig(p: Pair): Config<Advertisement>
    requires Linked(p)
  {
    ConfigOf(p.first, p.second)
  }

  function ForthLink(p: Pair): Link<Advertisement>
    requires Linked(p)
  {
    LinkOf(p.first, p.second, p.toSecond)
  }

  /** Every operation keeps the pair linked, with the same capacities and filters both ways. */
  lemma OperateKeepsLinked(p: Pair, op: SessionOp)
    requires Linked(p)
    ensures var p' := Operate(p, op);
            Linked(p') && ForthConfig(p') == ForthConfig(p) && ForthConfig(Flip(p')) == ForthConfig(Flip(p))
  {
    var q := if op.side == First then p else Flip(p);
    match op {
      case SendAds(_, ads) => SendKeepsBounds(q.first, ads);
      case ReceiveAds(_) => PullKeepsBounds(q.first);
    }
  }

  /** On the link from the first to the second, an operation is what `LinkOps` says: a push and a
      send, a receive and a take, or nothing. */
  lemma OperateIsPerform(p: Pair, op: SessionOp)
    requires Linked(p)
    ensures Linked(Operate(p, op))
    ensures var c, l, ops := ForthConfig(p), ForthLink(p), LinkOps(op);
            && Fits(c, l)
            && (ops == [] ==> ForthLink(Operate(p, op)) == l)
            && (ops != [] ==>
                  && |ops| == 2 && Fits(c, Perform(c, l, ops[0]))
                  && ForthLink(Operate(p, op)) == Perform(c, Perform(c, l, ops[0]), ops[1]))
  {
    OperateKeepsLinked(p, op);
    match op {
      case SendAds(First, ads) =>
        SendKeepsBounds(p.first, ads);
        EmptySend(p.first, ads);
      case ReceiveAds(Second) =>
        PullKeepsBounds(p.second);
      case _ =>
    }
  }

  function OperateAll(p: Pair, ops: seq<SessionOp>): Pair
    requires Linked(p)
    decreases |ops|
  {
    if ops == [] then p
    else
      OperateKeepsLinked(p, ops[0]);
      OperateAll(Operate(p, ops[0]), ops[1..])
  }

  lemma {:induction false} RunKeepsLinked(p: Pair, ops: seq<SessionOp>)
    requires Linked(p)
    ensures var p' := OperateAll(p, ops);
            Linked(p') && ForthConfig(p') == ForthConfig(p) && ForthConfig(Flip(p')) == ForthConfig(Flip(p))
    decreases |ops|
  {
    hide Linked, Operate;
    if ops != [] {
      OperateKeepsLinked(p, ops[0]);
      RunKeepsLinked(Operate(p, ops[0]), ops[1..]);
    }
  }

  /** The other direction is the same pair seen from the other side. */
  lemma {:induction false} RunFlips(p: Pair, ops: seq<SessionOp>)
    requires Linked(p)
    ensures OperateAll(Flip(p), Map(ops, FlipOp)) == Flip(OperateAll(p, ops))
    decreases |ops|
  {
    if ops != [] {
      OperateKeepsLinked(p, ops[0]);
      OperateFlips(p, ops[0]);
      hide Operate;
      RunFlips(Operate(p, ops[0]), ops[1..]);
    }
  }

  lemma OperateFlips(p: Pair, op: SessionOp)
    requires Linked(p)
    ensures Operate(Flip(p), FlipOp(op)) == Flip(Operate(p, op))
  {
    hide AfterSend, AfterReceive, Arriving;
  }

  function LinkOpsAll(ops: seq<SessionOp>): seq<LinkOp<Advertisement>> {
    if ops == [] then [] else LinkOps(ops[0]) + LinkOpsAll(ops[1..])
  }

  /** What one of the sessions sends over a run. */
  function SentBy(side: Side, ops: seq<SessionOp>): seq<Advertisement> {
    if ops == [] then []
    else (if ops[0].SendAds? && ops[0].side == side then ops[0].ads else []) + SentBy(side, ops[1..])
  }

  lemma {:induction false} SentFlips(ops: seq<SessionOp>)
    ensures SentBy(First, Map(ops, FlipOp)) == SentBy(Second, ops)
  {
    if ops != [] {
      SentFlips(ops[1..]);
    }
  }

  lemma EnterParts<T>(c: Config<T>, d: Ledger<T>, op: LinkOp<T>)
    requires Fits(c, d.link)
    ensures Enter(c, d, op).pushed == d.pushed + if op.Push? then op.batch else []
    ensures Enter(c, d, op).link == Perform(c, d.link, op)
  {
  }

  lemma BookTwo<T>(c: Config<T>, d: Ledger<T>, x: LinkOp<T>, y: LinkOp<T>, rest: seq<LinkOp<T>>)
    requires Ordered(c, d)
    ensures Ordered(c, Enter(c, d, x)) && Ordered(c, Enter(c, Enter(c, d, x), y))
    ensures Book(c, d, [x, y] + rest) == Book(c, Enter(c, Enter(c, d, x), y), rest)
  {
    hide Enter;
    StepOrdered(c, d, x);
    StepOrdered(c, Enter(c, d, x), y);
    assert ([x, y] + rest)[1..] == [y] + rest;
    assert ([y] + rest)[1..] == rest;
  }

  /** One operation of the sessions, entered in the ledger as two of the link or as none. */
  lemma BookOp(c: Config<Advertisement>, d: Ledger<Advertisement>, op: SessionOp,
                                  rest: seq<LinkOp<Advertisement>>)
    returns (e: Ledger<Advertisement>)
    requires Ordered(c, d)
    ensures Ordered(c, e) && Book(c, d, LinkOps(op) + rest) == Book(c, e, rest)
    ensures e.pushed == d.pushed + if op.SendAds? && op.side == First then op.ads else []
    ensures var ops := LinkOps(op);
            && Fits(c, d.link)
            && (ops == [] ==> e.link == d.link)
            && (ops != [] ==>
                  && |ops| == 2 && Fits(c, Perform(c, d.link, ops[0]))
                  && e.link == Perform(c, Perform(c, d.link, ops[0]), ops[1]))
  {
    hide Enter, Perform, Book, Line;
    if LinkOps(op) == [] {
      assert LinkOps(op) + rest == rest;
      e := d;
    } else {
      var x, y := LinkOps(op)[0], LinkOps(op)[1];
      assert LinkOps(op) == [x, y];
      BookTwo(c, d, x, y, rest);
      EnterParts(c, d, x);
      EnterParts(c, Enter(c, d, x), y);
      e := Enter(c, Enter(c, d, x), y);
    }
  }

  /** Any interleaving of sends and receives by both sessions is, on the link from the first to the
      second, a run of that link, so the laws of link runs hold of it. */
  lemma {:induction false} SessionsRunTheLink(p: Pair, d: Ledger<Advertisement>, ops: seq<SessionOp>)
    requires Linked(p) && d.link == ForthLink(p) && Ordered(ForthConfig(p), d)
    ensures var e := Book(ForthConfig(p), d, LinkOpsAll(ops));
            && Linked(OperateAll(p, ops)) && e.link == ForthLink(OperateAll(p, ops))
            && e.pushed == d.pushed + SentBy(First, ops)
    decreases |ops|
  {
    hide Ordered, Enter, Perform, Operate, Linked;
    if ops != [] {
      OperateKeepsLinked(p, ops[0]);
      OperateIsPerform(p, ops[0]);
      var e := BookOp(ForthConfig(p), d, ops[0], LinkOpsAll(ops[1..]));
      SessionsRunTheLink(Operate(p, ops[0]), e, ops[1..]);
    }
  }

  /** Nothing sent or received yet. */
  predicate Unused(p: Pair)
    requires Linked(p)
  {
    ForthLink(p) == Link([], [], [], []) && ForthLink(Flip(p)) == Link([], [], [], [])
  }

  lemma SecondReceivesInOrder(p: Pair, ops: seq<SessionOp>)
    requires Linked(p) && Unused(p)
    ensures Subseq(OperateAll(p, ops).toSecond, Filter(SentBy(First, ops), Both(ForthConfig(p))))
  {
    var c := ForthConfig(p);
    PassingInOrder(c, LinkOpsAll(ops));
    SessionsRunTheLink(p, Start(c), ops);
    var e := Book(c, Start(c), LinkOpsAll(ops));
    assert e.pushed == SentBy(First, ops);
    hide OperateAll, Book, SentBy, Linked, Both;
    var delivered := e.link.delivered;
    var rest := Passing(c, e.link)[|delivered|..];
    SubseqRefl(delivered);
    SubseqConcat(delivered, delivered, [], rest);
    assert delivered + [] == delivered && delivered + rest == Passing(c, e.link);
    SubseqTrans(delivered, Passing(c, e.link), Filter(e.pushed, Both(c)));
  }

  /** What each session has received, over any interleaving of sends and receives by both, is an
      in-order subsequence of what the other sent and both filters let through. */
  lemma ReceivedInOrder(p: Pair, ops: seq<SessionOp>)
    requires Linked(p) && Unused(p)
    ensures var end := OperateAll(p, ops);
            && Subseq(end.toSecond, Filter(SentBy(First, ops), Both(ForthConfig(p))))
            && Subseq(end.toFirst, Filter(SentBy(Second, ops), Both(ForthConfig(Flip(p)))))
  {
    SecondReceivesInOrder(p, ops);
    SecondReceivesInOrder(Flip(p), Map(ops, FlipOp));
    RunFlips(p, ops);
    SentFlips(ops);
  }

  /** Every batch of the run, in the direction from the first to the second, meets room for all
      of it. */
  predicate AlwaysFits(p: Pair, ops: seq<SessionOp>)
    requires Linked(p)
  {
    StartHolds(ForthConfig(p));
    AlwaysRoom(ForthConfig(p), Start(ForthConfig(p)), LinkOpsAll(ops))
  }

  /** Received, or still under way and sure to pass both filters. */
  function Due(p: Pair): seq<Advertisement>
    requires Linked(p)
  {
    Passing(ForthConfig(p), ForthLink(p))
  }

  /** Everything that fell at a full buffer on the way from the first to the second. */
  function Dropped(p: Pair, ops: seq<SessionOp>): multiset<Advertisement>
    requires Linked(p)
  {
    StartHolds(ForthConfig(p));
    Fallen(Book(ForthConfig(p), Start(ForthConfig(p)), LinkOpsAll(ops)))
  }

  lemma SecondReceivesAll(p: Pair, ops: seq<SessionOp>)
    requires Linked(p) && Unused(p)
    ensures Linked(OperateAll(p, ops))
    ensures Due(OperateAll(p, ops)) == Filter(SentBy(First, ops), Both(ForthConfig(p)))
       <==> forall x <- Dropped(p, ops) :: !Both(ForthConfig(p))(x)
    ensures Dropped(p, ops) == multiset{} <==> AlwaysFits(p, ops)
  {
    var c := ForthConfig(p);
    StartHolds(c);
    RunLedger(c, Start(c), LinkOpsAll(ops));
    NoLossIffRoom(c, Start(c), LinkOpsAll(ops));
    SessionsRunTheLink(p, Start(c), ops);
    RunKeepsLinked(p, ops);
    var e := Book(c, Start(c), LinkOpsAll(ops));
    assert e.pushed == SentBy(First, ops);
    CompleteIff(c, e);
    NothingFallen(e);
  }

  lemma NothingFallen<T>(d: Ledger<T>)
    ensures Fallen(d) == multiset{} <==> NoLoss(d)
  {
    if Fallen(d) == multiset{} {
      assert forall x :: Fallen(d)[x] == d.overflowed[x] + d.refused[x] + d.lost[x];
      assert forall x :: x !in Fallen(d);
    }
  }

  /** Each session receives exactly what the other sent and both filters let through, in order and
      up to what is still under way, if and only if nothing that passes both filters fell at a full
      buffer; and nothing falls at all if and only if every batch meets room for all of it. Both
      directions, over any interleaving of sends and receives by both. */
  lemma ReceivedAll(p: Pair, ops: seq<SessionOp>)
    requires Linked(p) && Unused(p)
    ensures var end, both := OperateAll(p, ops), Both(ForthConfig(p));
            && Linked(end)
            && (Due(end) == Filter(SentBy(First, ops), both) <==> forall x <- Dropped(p, ops) :: !both(x))
            && (Dropped(p, ops) == multiset{} <==> AlwaysFits(p, ops))
    ensures var end, back, flipped := OperateAll(p, ops), Both(ForthConfig(Flip(p))), Map(ops, FlipOp);
            && (Due(Flip(end)) == Filter(SentBy(Second, ops), back)
                <==> forall x <- Dropped(Flip(p), flipped) :: !back(x))
            && (Dropped(Flip(p), flipped) == multiset{} <==> AlwaysFits(Flip(p), flipped))
  {
    RunKeepsLinked(p, ops);
    SecondReceivesAll(p, ops);
    SecondReceivesAll(Flip(p), Map(ops, FlipOp));
    RunFlips(p, ops);
    SentFlips(ops);
  }
}
