/** Routers (src/modules/router.rs): one step of `work` runs a cycle of each BGP process. */
module Routers {
  import opened RouterMaskMaps
  import opened BgpSessions
  import opened BgpProcesses

  lemma Owns(p: BgpProcess)
    ensures p in p.Repr() && p.Outer() <= p.Repr() && p.Inner() <= p.Repr()
    ensures allocated(p.Repr()) && allocated(p.Outer()) && allocated(p.Inner())
    ensures p.Valid() ==> Runs(p.View())
  {
    hide BgpSessions.Footprint, BgpSessions.InterfacesOf, BgpSessions.Views, CanAcquire;
    p.Parts();
  }

  // ---- what the processes of a router are made of ----

  ghost function Outers(processes: seq<BgpProcess>): (objects: set<object>)
    reads processes
    ensures forall p <- processes :: p.Outer() <= objects
  {
    if processes == [] then {} else processes[0].Outer() + Outers(processes[1..])
  }

  ghost function Inners(processes: seq<BgpProcess>): (objects: set<object>)
    reads processes, Outers(processes)
    ensures forall p <- processes :: p.Inner() <= objects
  {
    if processes == [] then {} else processes[0].Inner() + Inners(processes[1..])
  }

  ghost function Objects(processes: seq<BgpProcess>): set<object>
    reads processes, Outers(processes), Inners(processes)
  {
    if processes == [] then {} else processes[0].Repr() + Objects(processes[1..])
  }

  /** The processes are valid, and no two of them share anything. */
  ghost predicate Unrelated(processes: seq<BgpProcess>)
    reads processes, Outers(processes), Inners(processes), Objects(processes)
  {
    processes != [] ==>
      processes[0].Valid() && processes[0].Repr() !! Objects(processes[1..]) && Unrelated(processes[1..])
  }

  lemma {:induction false} ObjectsAre(processes: seq<BgpProcess>)
    ensures forall p <- processes :: p.Repr() <= Objects(processes)
    ensures forall o <- Objects(processes) :: exists p <- processes :: o in p.Repr()
  {
    hide BgpProcess.Repr, BgpProcess.Outer, BgpProcess.Inner;
    if processes != [] {
      ObjectsAre(processes[1..]);
      assert forall p :: p in processes <==> p == processes[0] || p in processes[1..];
    }
  }

  lemma {:induction false} UnrelatedIff(processes: seq<BgpProcess>)
    ensures Unrelated(processes) <==>
            && (forall p <- processes :: p.Valid())
            && forall i, j :: 0 <= i < j < |processes| ==> processes[i].Repr() !! processes[j].Repr()
  {
    hide BgpProcess.Repr, BgpProcess.Outer, BgpProcess.Inner, BgpProcess.Valid, Objects;
    if processes != [] {
      var rest := processes[1..];
      UnrelatedIff(rest);
      ObjectsAre(rest);
      if processes[0].Repr() !! Objects(rest) && Unrelated(rest) {
        forall i, j | 0 <= i < j < |processes| ensures processes[i].Repr() !! processes[j].Repr() {
          assert processes[j] == rest[j - 1] && rest[j - 1] in rest;
          if i > 0 {
            assert processes[i] == rest[i - 1];
          }
        }
      } else if forall i, j :: 0 <= i < j < |processes| ==> processes[i].Repr() !! processes[j].Repr() {
        forall o | o in Objects(rest) ensures o !in processes[0].Repr() {
          var j :| 0 <= j < |rest| && o in rest[j].Repr();
          assert rest[j] == processes[j + 1];
        }
        forall i, j | 0 <= i < j < |rest| ensures rest[i].Repr() !! rest[j].Repr() {
          assert rest[i] == processes[i + 1] && rest[j] == processes[j + 1];
        }
      }
    }
  }

  lemma {:induction false} ObjectsOwn(processes: seq<BgpProcess>)
    ensures forall p <- processes :: p in Objects(processes)
    ensures Outers(processes) <= Objects(processes) && Inners(processes) <= Objects(processes)
    ensures allocated(Objects(processes)) && allocated(Outers(processes)) && allocated(Inners(processes))
  {
    hide BgpProcess.Repr, BgpProcess.Outer, BgpProcess.Inner;
    if processes != [] {
      Owns(processes[0]);
      ObjectsOwn(processes[1..]);
    }
  }

  lemma {:induction false} OneMoreProcess(processes: seq<BgpProcess>, p: BgpProcess)
    requires Unrelated(processes) && p.Valid() && Objects(processes) !! p.Repr()
    ensures Unrelated(processes + [p]) && Objects(processes + [p]) == Objects(processes) + p.Repr()
  {
    hide BgpProcess.Repr, BgpProcess.Outer, BgpProcess.Inner, BgpProcess.Valid;
    if processes == [] {
      assert (processes + [p])[1..] == [];
    } else {
      assert (processes + [p])[1..] == processes[1..] + [p];
      OneMoreProcess(processes[1..], p);
    }
  }

  /** The body of `work`'s loop. */
  method RunCycle(process: BgpProcess)
    requires process.Valid()
    modifies process.Repr()
    ensures process.Valid() && fresh(process.Repr() - old(process.Repr()))
    ensures Runs(old(process.View())) && process.View() == Cycle(old(process.View()))
  {
    hide BgpProcess.Valid, BgpProcess.View, Runs, ReceiveStage, CollectStage, GenerateStage, SendStage;
    Owns(process);
    ReceiveRuns(process.View());
    process.Receive();
    process.GetBestRouteChanges();
    process.GenerateAdvertisement();
    process.Send();
  }

  /** One process of several runs its cycle: the others are untouched. */
  method CycleAt(processes: seq<BgpProcess>, i: nat)
    requires Unrelated(processes) && i < |processes|
    modifies processes[i].Repr()
    ensures Unrelated(processes) && fresh(Objects(processes) - old(Objects(processes)))
    ensures Runs(old(processes[i].View())) && processes[i].View() == Cycle(old(processes[i].View()))
    ensures forall j :: 0 <= j < |processes| && j != i ==>
              processes[j].View() == old(processes[j].View()) && processes[j].Repr() == old(processes[j].Repr())
  {
    hide BgpProcess.Valid, BgpProcess.View, BgpProcess.Repr, BgpProcess.Outer, BgpProcess.Inner, Runs, Cycle,
         Unrelated, Objects;
    UnrelatedIff(processes);
    forall p | p in processes
      ensures p in p.Repr() && p.Outer() <= p.Repr() && p.Inner() <= p.Repr()
      ensures allocated(p.Repr()) && allocated(p.Outer()) && allocated(p.Inner())
    {
      Owns(p);
    }
    ghost var mine, all := processes[i].Repr(), Objects(processes);
    assert forall k :: 0 <= k < |processes| ==> processes[k].Repr() <= all by {
      ObjectsAre(processes);
    }
    RunCycle(processes[i]);
    forall j | 0 <= j < |processes| && j != i
      ensures processes[j].View() == old(processes[j].View())
      ensures processes[j].Repr() == old(processes[j].Repr())
      ensures processes[j].Valid()
    {
      var p := processes[j];
      assert old(p.Repr()) !! mine;
      assert old(p in p.Repr() && p.Outer() <= p.Repr() && p.Inner() <= p.Repr());
    }
    UnrelatedIff(processes);
    forall o | o in Objects(processes) ensures o in all || fresh(o) {
      ObjectsAre(processes);
      var j :| 0 <= j < |processes| && o in processes[j].Repr();
      assert processes[j].Repr() == old(processes[j].Repr()) || j == i;
    }
  }

  class Router {
    const id: Uuid
    var bgpProcesses: seq<BgpProcess>

    ghost predicate Valid()
      reads this, bgpProcesses, Outers(bgpProcesses), Inners(bgpProcesses), Objects(bgpProcesses)
    {
      Unrelated(bgpProcesses) && this !in Objects(bgpProcesses)
    }

    constructor (id: Uuid)
      ensures Valid() && this.id == id && bgpProcesses == []
    {
      this.id := id;
      bgpProcesses := [];
    }

    ghost predicate Apart(process: BgpProcess)
      reads this, bgpProcesses, Outers(bgpProcesses), Inners(bgpProcesses)
      reads process, process.Outer(), process.Inner(), process.Repr()
    {
      process.Valid() && this !in process.Repr() && Objects(bgpProcesses) !! process.Repr()
    }

    /** The process works for this router from now on. */
    method AddBgpProcess(process: BgpProcess)
      requires Valid() && Apart(process) && CanAcquire(process.View().rib.alloc, id)
      modifies this`bgpProcesses, process.ribInterface`clientId
      ensures Valid() && bgpProcesses == old(bgpProcesses) + [process]
      ensures Objects(bgpProcesses) == old(Objects(bgpProcesses)) + old(process.Repr())
      ensures process.View() == old(process.View()).(id := id)
    {
      hide BgpProcess.Valid, BgpProcess.View, BgpProcess.Repr, BgpProcess.Inner, Unrelated, Objects, Outers, Inners;
      Owns(process);
      ObjectsOwn(bgpProcesses);
      process.SetRouterId(id);
      OneMoreProcess(bgpProcesses, process);
      Owns(process);
      ObjectsOwn(bgpProcesses + [process]);
      bgpProcesses := bgpProcesses + [process];
    }

    /** One step of the router: every process runs one cycle. */
    method Work()
      requires Valid()
      modifies Objects(bgpProcesses)
      ensures Valid() && bgpProcesses == old(bgpProcesses)
      ensures fresh(Objects(bgpProcesses) - old(Objects(bgpProcesses)))
      ensures forall i :: 0 <= i < |bgpProcesses| ==>
                Runs(old(bgpProcesses[i].View())) && bgpProcesses[i].View() == Cycle(old(bgpProcesses[i].View()))
    {
      hide BgpProcess.Valid, BgpProcess.View, BgpProcess.Repr, Runs, Cycle, Unrelated, Objects;
      ghost var processes, mine := bgpProcesses, Objects(bgpProcesses);
      for i := 0 to |bgpProcesses|
        invariant bgpProcesses == processes && Valid()
        invariant forall o <- Objects(processes) :: o in mine || fresh(o)
        invariant forall j :: 0 <= j < i ==>
                    Runs(old(processes[j].View())) && processes[j].View() == Cycle(old(processes[j].View()))
        invariant forall j :: i <= j < |processes| ==> processes[j].View() == old(processes[j].View())
      {
        assert processes[i].Repr() <= Objects(processes) by {
          ObjectsAre(processes);
        }
        label before:
        CycleAt(bgpProcesses, i);
        forall o | o in Objects(processes) ensures o in mine || fresh(o) {
          assert o in old@before(Objects(processes)) || fresh@before(o);
        }
      }
    }
  }
}
