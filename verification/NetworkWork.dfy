/** `Router::work` as a run of the step system: the steps of one router, uninterrupted, do to its
    process exactly what one cycle does (src/modules/router.rs, src/components/bgp/bgp_process.rs). */
module NetworkWork {
  import opened Wrappers
  import opened RouterMaskMaps
  import opened RibRuns
  import opened Advertisements
  import opened RibUpdates
  import opened Interfaces
  import opened BgpSessions
  import opened BgpProcesses
  import opened Networks

  /** No two sessions of the router share a channel. */
  ghost predicate OwnChannels(n: Node) {
    forall i, j :: 0 <= i < |n.sessions| && 0 <= j < |n.sessions| && i != j ==>
      Disjoint(n.sessions[i], n.sessions[j])
  }

  ghost predicate Disjoint(s: Session, t: Session) {
    && (s.inChannel.Some? ==> s.inChannel != t.inChannel && s.inChannel != t.outChannel)
    && (s.outChannel.Some? ==> s.outChannel != t.inChannel && s.outChannel != t.outChannel)
  }

  ghost function EndAt(net: Net, r: nat, i: nat): End
    requires NetOk(net) && r < |net.nodes| && i < |net.nodes[r].sessions|
  {
    EndOfOk(net, r, i);
    EndOf(net, net.nodes[r].sessions[i])
  }

  ghost function Ends(net: Net, r: nat): (ends: seq<Option<End>>)
    requires NetOk(net) && r < |net.nodes|
    ensures |ends| == |net.nodes[r].sessions|
  {
    seq(|net.nodes[r].sessions|, i requires 0 <= i < |net.nodes[r].sessions| => Some(EndAt(net, r, i)))
  }

  /** The router's process, with the channels seen from its sessions. */
  ghost function ProcessAt(net: Net, r: nat): Process
    requires NetOk(net) && r < |net.nodes|
  {
    ProcessFrom(net.nodes[r], Ends(net, r))
  }

  function ProcessFrom(n: Node, ends: seq<Option<End>>): Process {
    Process(n.id, n.ip, n.rib, n.pending, n.updates, n.ads, ends)
  }

  lemma ProcessRuns(net: Net, r: nat)
    requires NetOk(net) && r < |net.nodes|
    ensures Runs(ProcessAt(net, r))
  {
    assert NodeOk(net, net.nodes[r]);
    forall i | 0 <= i < |net.nodes[r].sessions| ensures Ok(Ends(net, r)[i]) {
      EndOfOk(net, r, i);
    }
  }

  /** The end fits the session: the channels it has, seen once when they are one. */
  ghost predicate Matches(net: Net, s: Session, e: End) {
    && (s.inChannel.Some? <==> e.inbound.Some?) && (s.outChannel.Some? <==> e.outbound.Some?)
    && e.loopback == (s.inChannel.Some? && s.inChannel == s.outChannel)
    && (e.loopback ==> e.inbound == e.outbound)
    && (e.inbound.Some? && s.inChannel.value < |net.channels| ==>
          e.inbound.value.bound == net.channels[s.inChannel.value].bound)
    && (e.outbound.Some? && s.outChannel.value < |net.channels| ==>
          e.outbound.value.bound == net.channels[s.outChannel.value].bound)
  }

  /** Writing one session's end back changes that end only. */
  lemma DetachEnds(net: Net, r: nat, i: nat, e: End)
    requires NetOk(net) && r < |net.nodes| && i < |net.nodes[r].sessions| && OwnChannels(net.nodes[r])
    requires EndOk(e) && Matches(net, net.nodes[r].sessions[i], e)
    ensures var after := Detach(net, r, i, e);
            && NetOk(after) && SameWiring(net, after) && OwnChannels(after.nodes[r])
            && Ends(after, r) == Ends(net, r)[i := Some(e)]
  {
    var after := Detach(net, r, i, e);
    assert NodeOk(net, net.nodes[r]);
    assert Attached(net, net.nodes[r].sessions[i]);
    DetachOk(net, r, i, e);
    forall j | 0 <= j < |net.nodes[r].sessions|
      ensures EndAt(after, r, j) == if j == i then e else EndAt(net, r, j)
    {
      assert Attached(net, net.nodes[r].sessions[j]);
      if j != i {
        assert Disjoint(net.nodes[r].sessions[i], net.nodes[r].sessions[j]);
      }
    }
    assert Ends(after, r) == Ends(net, r)[i := Some(e)];
    forall j, k | 0 <= j < |after.nodes[r].sessions| && 0 <= k < |after.nodes[r].sessions| && j != k
      ensures Disjoint(after.nodes[r].sessions[j], after.nodes[r].sessions[k])
    {
      assert Disjoint(net.nodes[r].sessions[j], net.nodes[r].sessions[k]);
    }
  }

  /** Router `r` of the network is between two steps of its own. */
  ghost predicate Ready(net: Net, r: nat, sessions: nat) {
    NetOk(net) && r < |net.nodes| && OwnChannels(net.nodes[r]) && |net.nodes[r].sessions| == sessions
  }

  /** One more step of a run. */
  lemma StepOn(net: Net, steps: seq<Step>, step: Step)
    requires NetOk(net) && Reached(net, steps).Some? && Possible(Reached(net, steps).value, step)
    ensures Reached(net, steps + [step]) == Some(Take(Reached(net, steps).value, step))
  {
    assert (steps + [step])[..|steps|] == steps;
  }

  // ---- one step of a session ----

  lemma ReceiveStep(net: Net, r: nat, i: nat, sessions: nat)
    requires Ready(net, r, sessions) && i < sessions
    ensures i < |ProcessAt(net, r).ends|
    ensures var after, p := Take(net, ReceiveFrom(r, i)), ProcessAt(net, r);
            && Ready(after, r, sessions) && after.nodes[r].inbox == net.nodes[r].inbox + ArrivingAt(p.ends[i])
            && ProcessAt(after, r) == p.(ends := p.ends[i := AfterReceiveAt(p.ends[i])])
  {
    EndOfOk(net, r, i);
    var e := EndAt(net, r, i);
    PullKeepsBounds(e);
    TakeOk(net, ReceiveFrom(r, i));
    DetachEnds(net, r, i, AfterReceive(e));
    var detached := Detach(net, r, i, AfterReceive(e));
    assert Ends(Take(net, ReceiveFrom(r, i)), r) == Ends(detached, r);
  }

  lemma SendIsPossible(net: Net, r: nat, i: nat, sessions: nat)
    requires Ready(net, r, sessions) && i < sessions
    ensures Possible(net, SendTo(r, i))
  {
  }

  lemma SendStep(net: Net, r: nat, i: nat, sessions: nat)
    requires Ready(net, r, sessions) && i < sessions
    ensures i < |ProcessAt(net, r).ends| && Ok(ProcessAt(net, r).ends[i])
    ensures var after, p := Take(net, SendTo(r, i)), ProcessAt(net, r);
            && Ready(after, r, sessions) && after.nodes[r].inbox == net.nodes[r].inbox
            && ProcessAt(after, r) == p.(ends := p.ends[i := AfterSendAt(p.ends[i], p.ads)])
  {
    EndOfOk(net, r, i);
    var e := EndAt(net, r, i);
    SendKeepsBounds(e, net.nodes[r].ads);
    TakeOk(net, SendTo(r, i));
    DetachEnds(net, r, i, AfterSend(e, net.nodes[r].ads));
  }

  // ---- the receive stage and the send stage ----

  function Receives(r: nat, k: nat): seq<Step> {
    if k == 0 then [] else Receives(r, k - 1) + [ReceiveFrom(r, k - 1)]
  }

  /** The steps so far, then a send to each of the first `k` sessions. */
  function Sends(steps: seq<Step>, r: nat, k: nat): seq<Step> {
    if k == 0 then steps else Sends(steps, r, k - 1) + [SendTo(r, k - 1)]
  }

  ghost function ReceivedUpTo(ends: seq<Option<End>>, k: nat): seq<Option<End>> {
    seq(|ends|, i requires 0 <= i < |ends| => if i < k then AfterReceiveAt(ends[i]) else ends[i])
  }

  ghost function SentUpTo(ends: seq<Option<End>>, k: nat, ads: seq<Advertisement>): seq<Option<End>>
    requires AllOk(ends)
  {
    seq(|ends|, i requires 0 <= i < |ends| => if i < k then AfterSendAt(ends[i], ads) else ends[i])
  }

  lemma ReceivedNext(ends: seq<Option<End>>, k: nat)
    ensures ReceivedUpTo(ends, 0) == ends
    ensures k < |ends| ==> |ReceivedUpTo(ends, k)| == |ends| && ReceivedUpTo(ends, k)[k] == ends[k]
    ensures k < |ends| ==> ReceivedUpTo(ends, k)[k := AfterReceiveAt(ends[k])] == ReceivedUpTo(ends, k + 1)
  {
    hide AfterReceiveAt;
  }

  lemma SentNext(ends: seq<Option<End>>, k: nat, ads: seq<Advertisement>)
    requires AllOk(ends)
    ensures SentUpTo(ends, 0, ads) == ends
    ensures k < |ends| ==> |SentUpTo(ends, k, ads)| == |ends| && SentUpTo(ends, k, ads)[k] == ends[k]
    ensures k < |ends| ==> SentUpTo(ends, k, ads)[k := AfterSendAt(ends[k], ads)] == SentUpTo(ends, k + 1, ads)
  {
    hide AfterSendAt;
  }

  lemma EndsCount(net: Net, r: nat, sessions: nat)
    requires Ready(net, r, sessions)
    ensures |ProcessAt(net, r).ends| == sessions && Runs(ProcessAt(net, r))
    ensures ProcessAt(net, r).ads == net.nodes[r].ads
  {
    ProcessRuns(net, r);
  }

  lemma {:induction false} ReceivesDo(net: Net, r: nat, k: nat, sessions: nat)
    requires Ready(net, r, sessions) && k <= sessions && net.nodes[r].inbox == []
    ensures |ProcessAt(net, r).ends| == sessions
    ensures Reached(net, Receives(r, k)).Some?
    ensures var now, p := Reached(net, Receives(r, k)).value, ProcessAt(net, r);
            && Ready(now, r, sessions) && now.nodes[r].inbox == Arrivals(p.ends[..k])
            && ProcessAt(now, r) == p.(ends := ReceivedUpTo(p.ends, k))
  {
    EndsCount(net, r, sessions);
    var ends := ProcessAt(net, r).ends;
    hide Take, OwnChannels, NetOk, AfterReceiveAt, ArrivingAt, ProcessAt, ReceivedUpTo, Runs;
    if k == 0 {
      ReceivedNext(ends, 0);
    } else {
      ReceivesDo(net, r, k - 1, sessions);
      var before := Reached(net, Receives(r, k - 1)).value;
      ReceiveStep(before, r, k - 1, sessions);
      StepOn(net, Receives(r, k - 1), ReceiveFrom(r, k - 1));
      hide Reached;
      ArrivalsSnoc(ends, k - 1);
      ReceivedNext(ends, k - 1);
    }
  }

  lemma {:induction false} SendsDo(net: Net, pre: seq<Step>, r: nat, k: nat, sessions: nat)
    requires NetOk(net) && Reached(net, pre).Some?
    requires Ready(Reached(net, pre).value, r, sessions) && k <= sessions
    ensures Runs(ProcessAt(Reached(net, pre).value, r))
    ensures Reached(net, Sends(pre, r, k)).Some?
    ensures var mid, now := Reached(net, pre).value, Reached(net, Sends(pre, r, k)).value;
            var p := ProcessAt(mid, r);
            && Ready(now, r, sessions) && now.nodes[r].inbox == mid.nodes[r].inbox
            && ProcessAt(now, r) == p.(ends := SentUpTo(p.ends, k, p.ads))
    decreases k
  {
    hide Reached, Take, Possible, SameWiring, OwnChannels, NetOk, AfterSendAt, ProcessAt, SentUpTo, Ok, CanAcquire;
    var mid := Reached(net, pre).value;
    EndsCount(mid, r, sessions);
    var p := ProcessAt(mid, r);
    if k == 0 {
      SentNext(p.ends, 0, p.ads);
    } else {
      SendsDo(net, pre, r, k - 1, sessions);
      var before := Reached(net, Sends(pre, r, k - 1)).value;
      SendStep(before, r, k - 1, sessions);
      SendIsPossible(before, r, k - 1, sessions);
      StepOn(net, Sends(pre, r, k - 1), SendTo(r, k - 1));
      SentNext(p.ends, k - 1, p.ads);
    }
  }

  lemma WithNodeEnds(net: Net, r: nat, n: Node)
    requires NetOk(net) && r < |net.nodes| && OwnChannels(net.nodes[r])
    requires n.sessions == net.nodes[r].sessions && NetOk(WithNode(net, r, n))
    ensures Ready(WithNode(net, r, n), r, |n.sessions|) && Ends(WithNode(net, r, n), r) == Ends(net, r)
  {
    forall i | 0 <= i < |n.sessions|
      ensures EndAt(WithNode(net, r, n), r, i) == EndAt(net, r, i)
    {
    }
  }

  predicate OwnWork(step: Step) {
    step.Update? || step.Collect? || step.Generate? || step.Finish?
  }

  /** What a step on the node alone does to the process. */
  function Does(p: Process, inbox: seq<Advertisement>, step: Step): Process
    requires CanAcquire(p.rib.alloc, p.id) && OwnWork(step)
  {
    match step
    case Update(_) => Absorbed(p, inbox)
    case Collect(_) => CollectStage(p)
    case Generate(_) => GenerateStage(p)
    case Finish(_) => p.(ads := [])
  }

  lemma NodeDoes(n: Node, ends: seq<Option<End>>, step: Step)
    requires CanAcquire(n.rib.alloc, n.id) && OwnWork(step)
    ensures ProcessFrom(Worked(n, step), ends) == Does(ProcessFrom(n, ends), n.inbox, step)
    ensures Worked(n, step).sessions == n.sessions
    ensures Worked(n, step).inbox == if step.Update? then [] else n.inbox
  {
    hide Play, Reports, OpsOfAll, Generated, CanAcquire, Finishes;
  }

  /** A step on the node alone leaves its ends as they are. */
  lemma NodeStep(net: Net, steps: seq<Step>, step: Step, sessions: nat)
    requires NetOk(net) && Reached(net, steps).Some? && OwnWork(step)
    requires Ready(Reached(net, steps).value, step.node, sessions)
    ensures Reached(net, steps + [step]).Some?
    ensures var before, after := Reached(net, steps).value, Reached(net, steps + [step]).value;
            var r := step.node;
            && Ready(after, r, sessions) && Runs(ProcessAt(before, r))
            && ProcessAt(after, r) == Does(ProcessAt(before, r), before.nodes[r].inbox, step)
            && after.nodes[r].inbox == if step.Update? then [] else before.nodes[r].inbox
  {
    hide Worked, CanAcquire, OwnChannels, Ends, Does, Reached, ProcessFrom;
    StepOn(net, steps, step);
    var before := Reached(net, steps).value;
    var n := before.nodes[step.node];
    assert NodeOk(before, n);
    ProcessRuns(before, step.node);
    TakeOk(before, step);
    NodeDoes(n, Ends(before, step.node), step);
    hide NetOk;
    WithNodeEnds(before, step.node, Worked(n, step));
  }

  /** The stages before the send. */
  lemma FirstStages(net: Net, r: nat, sessions: nat)
    requires Ready(net, r, sessions) && net.nodes[r].inbox == []
    ensures Runs(ProcessAt(net, r))
    ensures var s := FirstSteps(r, sessions);
            && Reached(net, s).Some? && Ready(Reached(net, s).value, r, sessions)
            && Reached(net, s).value.nodes[r].inbox == []
            && ProcessAt(Reached(net, s).value, r) == GenerateStage(CollectStage(ReceiveStage(ProcessAt(net, r))))
  {
    hide Reached, OwnChannels, NetOk, CanAcquire, ProcessAt, Absorbed, CollectStage, GenerateStage;
    ProcessRuns(net, r);
    ReceivesDo(net, r, sessions, sessions);
    var s1 := Receives(r, sessions);
    EndsReceived(net, r);
    NodeStep(net, s1, Update(r), sessions);
    AbsorbedEnds(ProcessAt(net, r), Arrivals(ProcessAt(net, r).ends), Map(ProcessAt(net, r).ends, AfterReceiveAt));
    NodeStep(net, s1 + [Update(r)], Collect(r), sessions);
    NodeStep(net, s1 + [Update(r)] + [Collect(r)], Generate(r), sessions);
  }

  lemma EndsReceived(net: Net, r: nat)
    requires NetOk(net) && r < |net.nodes|
    ensures var p := ProcessAt(net, r);
            && Ends(net, r) == p.ends && p.ends[..|p.ends|] == p.ends
            && ReceivedUpTo(p.ends, |p.ends|) == Map(p.ends, AfterReceiveAt)
            && |p.ends| == |net.nodes[r].sessions|
  {
    hide AfterReceiveAt;
    MapPointwise(Ends(net, r), AfterReceiveAt, ReceivedUpTo(Ends(net, r), |Ends(net, r)|));
  }

  lemma AbsorbedEnds(p: Process, ads: seq<Advertisement>, ends: seq<Option<End>>)
    requires CanAcquire(p.rib.alloc, p.id)
    ensures Absorbed(p.(ends := ends), ads) == Absorbed(p, ads).(ends := ends)
  {
    hide Play, Reports, OpsOfAll, Finishes, CanAcquire;
  }

  function FirstSteps(r: nat, sessions: nat): seq<Step> {
    Receives(r, sessions) + [Update(r)] + [Collect(r)] + [Generate(r)]
  }

  /** The steps of one `work` of router `r`, in the order of the code. */
  function WorkSteps(r: nat, sessions: nat): seq<Step> {
    Sends(FirstSteps(r, sessions), r, sessions) + [Finish(r)]
  }

  /** Refinement: when a router's work is not interrupted, the step system does to its process
      what a cycle of the process does. */
  lemma WorkIsACycle(net: Net, r: nat, sessions: nat)
    requires Ready(net, r, sessions) && net.nodes[r].inbox == []
    ensures Runs(ProcessAt(net, r))
    ensures Reached(net, WorkSteps(r, sessions)).Some?
    ensures var after := Reached(net, WorkSteps(r, sessions)).value;
            && Ready(after, r, sessions) && after.nodes[r].inbox == []
            && ProcessAt(after, r) == Cycle(ProcessAt(net, r))
  {
    hide Reached, OwnChannels, NetOk, ReceiveStage, CollectStage, GenerateStage, CanAcquire, AfterSendAt, FirstSteps;
    FirstStages(net, r, sessions);
    ReceiveRuns(ProcessAt(net, r));
    var s4 := FirstSteps(r, sessions);
    var q := ProcessAt(Reached(net, s4).value, r);
    SendsDo(net, s4, r, sessions, sessions);
    hide ProcessAt;
    NodeStep(net, Sends(s4, r, sessions), Finish(r), sessions);
    assert SentUpTo(q.ends, sessions, q.ads) == SendStage(q).ends;
  }
}
