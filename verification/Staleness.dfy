/** How long a router keeps a route (src/components/bgp/bgp_process.rs, src/components/bgp/bgp_rib.rs):
    routers pass no withdrawal on, so over any run a route leaves a table only through an injected
    withdrawal of the same peer. */
module Staleness {
  import opened Wrappers
  import opened RouterMaskMaps
  import opened IpNetworks
  import opened Routes
  import opened RibEntries
  import opened Ribs
  import opened RibRuns
  import opened Advertisements
  import opened RibUpdates
  import opened BgpProcesses
  import opened Networks
  import opened Provenance
  import opened Attribution

  // ---- the table ----

  lemma {:induction false} WithdrawKeepsOthers(rs: seq<Tagged>, who: set<nat>, r: Route, x: Route)
    requires Stored(rs, x) && !SameSource(x, r)
    ensures Stored(Withdrawn(rs, who, r), x)
  {
    var t :| t in rs && t.route == x;
    if t == rs[0] {
      assert Withdrawn(rs, who, r)[0] == t;
    } else {
      assert t in rs[1..];
      WithdrawKeepsOthers(rs[1..], who, r, x);
      var u :| u in Withdrawn(rs[1..], who, r) && u.route == x;
      assert u in Withdrawn(rs, who, r);
    }
  }

  /** Only a removal from the same source takes a route out. */
  lemma ApplyKeeps(s: Rib, op: RibOp, p: IpNetwork, x: Route)
    requires Admits(s, op) && Stored(EntryAt(s, p), x)
    requires !op.ClearOp? && (op.RemoveOp? ==> !SameSource(x, op.route))
    ensures Stored(EntryAt(Apply(s, op), p), x)
  {
    match op {
      case RegisterOp(_) =>
      case InsertOp(id, r) =>
        InsertAfterRegister(s, r, id);
        InsertStored(EntryAt(s, p), {Acquire(s.alloc, id).owners[id]}, r, x);
      case RemoveOp(id, r) =>
        RemoveAfterRegister(s, r, id);
        if p == r.prefix {
          WithdrawKeepsOthers(EntryAt(s, p), {Acquire(s.alloc, id).owners[id]}, r, x);
        }
    }
  }

  lemma {:induction false} PlayKeeps(s: Rib, ops: seq<RibOp>, p: IpNetwork, x: Route)
    requires Finishes(s, ops) && Stored(EntryAt(s, p), x)
    requires forall op <- ops :: !op.ClearOp? && (op.RemoveOp? ==> !SameSource(x, op.route))
    ensures Stored(EntryAt(Play(s, ops), p), x)
    decreases |ops|
  {
    hide Apply, EntryAt, Stored;
    if ops != [] {
      ApplyKeeps(s, ops[0], p, x);
      PlayKeeps(Apply(s, ops[0]), ops[1..], p, x);
    }
  }

  // ---- one update ----

  /** The advertisement withdraws routes like this one: of its peer, at its prefix. */
  predicate WithdrawsLike(ad: Advertisement, x: Route) {
    ad.peer == Some(x.peer) && ad.withdrawals.Some? && Some(x.prefix) in ad.withdrawals.value
  }

  lemma {:induction false} NeverCleared(ads: seq<Advertisement>, id: Uuid, op: RibOp)
    requires op in OpsOfAll(ads, id)
    ensures !op.ClearOp?
  {
    MapMember(Announced(ads[0]), InsertBy(id), op);
    MapMember(Withdrawals(ads[0]), RemoveBy(id), op);
    if op !in OpsOf(ads[0], id) {
      NeverCleared(ads[1..], id, op);
    }
  }

  /** An update keeps a route unless a collected advertisement withdraws routes like it. */
  lemma UpdateKeeps(n: Node, p: IpNetwork, x: Route)
    requires CanAcquire(n.rib.alloc, n.id) && Stored(EntryAt(n.rib, p), x)
    ensures Stored(EntryAt(Updated(n).rib, p), x) || exists ad <- n.inbox :: WithdrawsLike(ad, x)
  {
    hide Stored, EntryAt, OpsOfAll, Play, Finishes;
    var ops := OpsOfAll(n.inbox, n.id);
    UpdateFinishes(n.rib, n.inbox, n.id);
    if op :| op in ops && op.RemoveOp? && SameSource(x, op.route) {
      var ad := RemovedIsWithdrawn(n.inbox, n.id, op);
      RoutesForMember(ad, "", ad.withdrawals.value, op.route);
      assert WithdrawsLike(ad, x);
    } else {
      forall op | op in ops ensures !op.ClearOp? {
        NeverCleared(n.inbox, n.id, op);
      }
      PlayKeeps(n.rib, ops, p, x);
    }
  }

  // ---- whole runs ----

  /** When every injected announcement has a next hop, then over any run an advertisement anywhere
      in the network that withdraws anything was injected. */
  lemma OnlyInjectedWithdraw(net: Net, steps: seq<Step>, spot: Spot, ad: Advertisement)
    requires NetOk(net) && Idle(net) && Reached(net, steps).Some? && InjectionsGiven(steps)
    requires IsAt(Reached(net, steps).value, spot, ad)
    ensures Injected(steps, ad) || ad.withdrawals == Some([])
  {
    hide Injected, Reached, Near;
    AdOrigin(net, steps, spot, ad);
    if !Injected(steps, ad) {
      var n: nat, q: nat :| Near(net, q, spot) && GeneratedIn(net, steps, n, q, ad);
      NoWithdrawalIsPassedOn(net, steps[..n], q);
    }
  }

  /** One of the steps injects an advertisement that withdraws routes like this one. */
  ghost predicate WithdrawalInjected(steps: seq<Step>, x: Route) {
    exists ad :: Injected(steps, ad) && WithdrawsLike(ad, x)
  }

  /** Staleness: when every injected announcement has a next hop, then over any run a route that a
      router has stored stays stored, unless an advertisement that withdraws its prefix for its
      own peer is injected. */
  lemma {:induction false} StoredStays(net: Net, steps: seq<Step>, n: nat, r: nat, p: IpNetwork, x: Route)
    requires NetOk(net) && Idle(net) && Reached(net, steps).Some? && InjectionsGiven(steps)
    requires n <= |steps| && Reached(net, steps[..n]).Some? && r < |Reached(net, steps[..n]).value.nodes|
    requires Stored(EntryAt(Reached(net, steps[..n]).value.nodes[r].rib, p), x)
    ensures r < |Reached(net, steps).value.nodes|
    ensures Stored(EntryAt(Reached(net, steps).value.nodes[r].rib, p), x) || WithdrawalInjected(steps, x)
    decreases |steps|
  {
    hide Take, Possible, Injected, Stored, EntryAt, WithdrawsLike;
    if n == |steps| {
      assert steps[..n] == steps;
    } else {
      var last := |steps| - 1;
      var step, was := steps[last], Reached(net, steps[..last]).value;
      assert steps[..last][..n] == steps[..n];
      StoredStays(net, steps[..last], n, r, p, x);
      RibChanges(was, step, r);
      if WithdrawalInjected(steps[..last], x) {
        var ad :| Injected(steps[..last], ad) && WithdrawsLike(ad, x);
        InjectedLater(steps, last, ad);
      } else if step == Update(r) {
        UpdateKeeps(was.nodes[r], p, x);
        if ad :| ad in was.nodes[r].inbox && WithdrawsLike(ad, x) {
          WithdrawingIsInjected(net, steps[..last], r, ad, x);
          InjectedLater(steps, last, ad);
        }
      }
    }
  }

  lemma WithdrawingIsInjected(net: Net, steps: seq<Step>, r: nat, ad: Advertisement, x: Route)
    requires NetOk(net) && Idle(net) && Reached(net, steps).Some? && InjectionsGiven(steps)
    requires IsAt(Reached(net, steps).value, Incoming(r), ad) && WithdrawsLike(ad, x)
    ensures Injected(steps, ad)
  {
    OnlyInjectedWithdraw(net, steps, Incoming(r), ad);
  }

  /** No injected withdrawal speaks for a router of the network. */
  predicate RoutersUnspoken(net: Net, steps: seq<Step>) {
    forall s <- steps :: (s.InjectAtNode? || s.InjectInChannel?) && s.ad.withdrawals.Some? ==>
      forall q :: 0 <= q < |net.nodes| ==> s.ad.peer != Some(net.nodes[q].ip.address)
  }

  /** So what a router has learned from another router it keeps for ever, whatever is withdrawn
      where the route came from. */
  lemma LearnedRoutesStay(net: Net, steps: seq<Step>, n: nat, r: nat, p: IpNetwork, x: Route, q: nat)
    requires NetOk(net) && Idle(net) && Reached(net, steps).Some? && InjectionsGiven(steps)
    requires n <= |steps| && Reached(net, steps[..n]).Some? && r < |Reached(net, steps[..n]).value.nodes|
    requires Stored(EntryAt(Reached(net, steps[..n]).value.nodes[r].rib, p), x)
    requires q < |net.nodes| && x.peer == net.nodes[q].ip.address && RoutersUnspoken(net, steps)
    ensures r < |Reached(net, steps).value.nodes|
    ensures Stored(EntryAt(Reached(net, steps).value.nodes[r].rib, p), x)
  {
    StoredStays(net, steps, n, r, p, x);
  }
}
