/** The bit allocator: one position of a 64-bit mask per registered router
    (`RouterMaskMap` in src/utils/router_mask.rs). */
module RouterMaskMaps {
  import opened Wrappers
  import opened RouterMasks

  /** A router identifier. The source uses a UUID and only compares it. */
  type Uuid = nat

  /** `taken` is the set of positions handed out, `owners` says to whom. */
  datatype Allocator = Allocator(taken: set<nat>, owners: map<Uuid, nat>)

  const EMPTY := Allocator({}, map[])

  ghost predicate AllocInv(a: Allocator) {
    && (forall id <- a.owners :: a.owners[id] < 64)
    && (forall i, j :: i in a.owners && j in a.owners && a.owners[i] == a.owners[j] ==> i == j)
    && a.taken == a.owners.Values
  }

  /** The lowest position from `i` on that is not taken, or 64. */
  function FirstFree(taken: set<nat>, i: nat): nat
    requires i <= 64
    decreases 64 - i
  {
    if i < 64 && i in taken then FirstFree(taken, i + 1) else i
  }

  /** `get` panics exactly when this does not hold. */
  predicate CanAcquire(a: Allocator, id: Uuid) {
    id in a.owners || FirstFree(a.taken, 0) < 64
  }

  function Acquire(a: Allocator, id: Uuid): Allocator
    requires CanAcquire(a, id)
  {
    if id in a.owners then a
    else
      var bit := FirstFree(a.taken, 0);
      Allocator(a.taken + {bit}, a.owners[id := bit])
  }

  function Release(a: Allocator, id: Uuid): Allocator
    requires id in a.owners
  {
    Allocator(a.taken - {a.owners[id]}, a.owners - {id})
  }

  // ---- what the two operations keep ----

  lemma {:induction false} FirstFreeIsFirst(taken: set<nat>, i: nat)
    requires i <= 64
    ensures i <= FirstFree(taken, i) <= 64
    ensures FirstFree(taken, i) < 64 ==> FirstFree(taken, i) !in taken
    ensures forall j | i <= j < FirstFree(taken, i) :: j in taken
    decreases 64 - i
  {
    if i < 64 && i in taken {
      FirstFreeIsFirst(taken, i + 1);
    }
  }

  /** Registering keeps the invariant and every position already handed out where it was,
      and gives a newcomer the lowest position that nobody owns. */
  lemma AcquireKeeps(a: Allocator, id: Uuid)
    requires AllocInv(a) && CanAcquire(a, id)
    ensures AllocInv(Acquire(a, id)) && id in Acquire(a, id).owners
    ensures forall i <- a.owners :: i in Acquire(a, id).owners && Acquire(a, id).owners[i] == a.owners[i]
    ensures id !in a.owners ==>
              var bit := Acquire(a, id).owners[id];
              bit !in a.owners.Values && forall j: nat | j < bit :: j in a.owners.Values
  {
    if id !in a.owners {
      FirstFreeIsFirst(a.taken, 0);
      var bit := FirstFree(a.taken, 0);
      var a' := Acquire(a, id);
      assert a'.owners[id] == bit;
      assert forall i <- a.owners :: a'.owners[i] == a.owners[i];
      assert a'.owners.Values == a.owners.Values + {bit};
    }
  }

  /** Unregistering frees exactly the caller's position. */
  lemma ReleaseKeeps(a: Allocator, id: Uuid)
    requires AllocInv(a) && id in a.owners
    ensures AllocInv(Release(a, id))
    ensures Release(a, id).taken + {a.owners[id]} == a.taken
    ensures forall i <- a.owners :: i != id ==> a.owners[i] in Release(a, id).taken
  {
    var a' := Release(a, id);
    forall b | b in a'.taken
      ensures b in a'.owners.Values
    {
      var i :| i in a.owners && a.owners[i] == b;
      assert a'.owners[i] == b;
    }
  }

  /** As many positions are taken as routers are registered. */
  lemma {:induction false} TakenIsOwners(a: Allocator)
    requires AllocInv(a)
    ensures |a.taken| == |a.owners|
    decreases |a.owners|
  {
    if |a.owners| != 0 {
      var id :| id in a.owners;
      ReleaseKeeps(a, id);
      TakenIsOwners(Release(a, id));
    }
  }

  lemma {:induction false} FullFrom(taken: set<nat>, i: nat)
    requires i <= 64 && forall j: nat | i <= j < 64 :: j in taken
    requires forall j <- taken :: i <= j < 64
    ensures |taken| == 64 - i
    decreases 64 - i
  {
    if i < 64 {
      FullFrom(taken - {i}, i + 1);
    } else {
      assert taken == {};
    }
  }

  lemma {:induction false} SizeBound(taken: set<nat>, n: nat)
    requires forall j <- taken :: j < n
    ensures |taken| <= n
    ensures |taken| == n ==> forall j | 0 <= j < n :: j in taken
  {
    if n == 0 {
      assert taken == {};
    } else {
      SizeBound(taken - {n - 1}, n - 1);
    }
  }

  /** `get` panics on a new router exactly when 64 are registered already. */
  lemma FullIff64(a: Allocator, id: Uuid)
    requires AllocInv(a)
    ensures |a.owners| <= 64
    ensures CanAcquire(a, id) <==> id in a.owners || |a.owners| < 64
  {
    TakenIsOwners(a);
    SizeBound(a.taken, 64);
    FirstFreeIsFirst(a.taken, 0);
    if FirstFree(a.taken, 0) == 64 {
      FullFrom(a.taken, 0);
    }
  }

  // ---- whole runs ----

  datatype AllocOp = Register(id: Uuid) | Unregister(id: Uuid)

  predicate Enabled(a: Allocator, op: AllocOp) {
    match op
    case Register(id) => CanAcquire(a, id)
    case Unregister(id) => id in a.owners
  }

  function Step(a: Allocator, op: AllocOp): Allocator
    requires Enabled(a, op)
  {
    match op
    case Register(id) => Acquire(a, id)
    case Unregister(id) => Release(a, id)
  }

  /** No operation of the run panics. */
  predicate Completes(a: Allocator, ops: seq<AllocOp>)
    decreases |ops|
  {
    ops == [] || (Enabled(a, ops[0]) && Completes(Step(a, ops[0]), ops[1..]))
  }

  function Run(a: Allocator, ops: seq<AllocOp>): Allocator
    requires Completes(a, ops)
    decreases |ops|
  {
    if ops == [] then a else Run(Step(a, ops[0]), ops[1..])
  }

  /** After any run each registered router owns one distinct position, the taken positions are
      those and as many as there are routers, at most 64; and a router that the run does not
      unregister still owns the position it had before. */
  lemma {:induction false} RunKeeps(a: Allocator, ops: seq<AllocOp>)
    requires AllocInv(a) && Completes(a, ops)
    ensures AllocInv(Run(a, ops))
    ensures |Run(a, ops).taken| == |Run(a, ops).owners| <= 64
    ensures forall id <- a.owners :: Unregister(id) !in ops ==>
              id in Run(a, ops).owners && Run(a, ops).owners[id] == a.owners[id]
    decreases |ops|
  {
    if ops == [] {
      TakenIsOwners(a);
      SizeBound(a.taken, 64);
    } else {
      match ops[0] {
        case Register(id) => AcquireKeeps(a, id);
        case Unregister(id) => ReleaseKeeps(a, id);
      }
      RunKeeps(Step(a, ops[0]), ops[1..]);
    }
  }

  // ---- the scan for a free position ----

  /** The test for a full mask agrees with the scan finding nothing. */
  lemma FullIsAll(mask: RouterMask)
    ensures mask == ALL <==> FirstFree(Bits(mask), 0) == 64
  {
    hide Bits;
    FirstFreeIsFirst(Bits(mask), 0);
    AllIsEverything(mask);
  }

  /** The first clear bit the scan meets is the lowest free position. */
  lemma ScanStep(mask: RouterMask, i: nat)
    requires i < 64 && forall j | 0 <= j < i :: j in Bits(mask)
    ensures Bits(RouterMask(Shifted(i))) == {i}
    ensures Intersect(mask, RouterMask(Shifted(i))) == NONE <==> i !in Bits(mask)
    ensures i !in Bits(mask) ==> FirstFree(Bits(mask), 0) == i
  {
    hide Bits, Shifted, Intersect;
    BitIsSingleton(i);
    var bit := RouterMask(Shifted(i));
    IntersectIsIntersection(mask, bit);
    NoPosition(Intersect(mask, bit));
    if i in Bits(mask) {
      assert i in Bits(Intersect(mask, bit));
    } else {
      FirstFreeIsFirst(Bits(mask), 0);
    }
  }

  lemma ToggleOff(taken: set<nat>, bit: nat)
    requires bit in taken
    ensures (taken - {bit}) + ({bit} - taken) == taken - {bit}
  {
  }

  // ---- the class ----

  /** `RouterMaskMap`. The ghost field `slots` names the position behind each owned mask. */
  class RouterMaskMap {
    var mask: RouterMask
    var owners: map<Uuid, RouterMask>
    ghost var slots: map<Uuid, nat>

    ghost function State(): Allocator
      reads this
    {
      Allocator(Bits(mask), slots)
    }

    ghost predicate Valid()
      reads this
    {
      && AllocInv(State())
      && owners.Keys == slots.Keys
      && forall id <- slots :: Bits(owners[id]) == {slots[id]}
    }

    constructor ()
      ensures Valid() && State() == EMPTY
    {
      mask, owners, slots := NONE, map[], map[];
      NoPosition(NONE);
    }

    ghost function SlotSet(id: Uuid): set<nat>
      reads this
    {
      if id in slots then {slots[id]} else {}
    }

    /** An unregistered router reads as the empty mask. */
    method TryGet(id: Uuid) returns (r: RouterMask)
      requires Valid()
      ensures Bits(r) == SlotSet(id)
    {
      hide Bits;
      NoPosition(NONE);
      if id in owners { return owners[id]; }
      return NONE;
    }

    /** Hands the free position `bit` to a new router. */
    method Take(id: Uuid, routerBit: RouterMask, ghost bit: nat)
      requires Valid() && id !in slots
      requires bit < 64 && bit == FirstFree(Bits(mask), 0) && Bits(routerBit) == {bit}
      modifies this
      ensures Valid() && id in slots && owners[id] == routerBit
      ensures State() == Acquire(old(State()), id)
    {
      hide Bits, Combine, AllocInv, FirstFree;
      AcquireKeeps(State(), id);
      CombineIsUnion(mask, routerBit);
      owners := owners[id := routerBit];
      mask := Combine(mask, routerBit);
      slots := slots[id := bit];
    }

    /** `None` stands for the panic of a full map. The panic that reports a corrupted map
        after the loop is proved unreachable. */
    method Get(id: Uuid) returns (r: Option<RouterMask>)
      requires Valid()
      modifies this
      ensures Valid()
      ensures r.None? <==> !old(CanAcquire(State(), id))
      ensures r.None? ==> State() == old(State())
      ensures r.Some? ==> State() == Acquire(old(State()), id) && Bits(r.value) == {slots[id]}
    {
      hide Bits, Shifted, Intersect, AllocInv;
      if id in owners {
        return Some(owners[id]);
      }
      FullIsAll(mask);
      if mask == ALL {
        return None;
      }
      for bit := 0 to 64
        invariant Valid() && State() == old(State()) && mask == old(mask)
        invariant forall j | 0 <= j < bit :: j in Bits(mask)
      {
        var routerBit := RouterMask(Shifted(bit));
        ScanStep(mask, bit);
        if Intersect(mask, routerBit) == NONE {
          Take(id, routerBit, bit);
          return Some(routerBit);
        }
      }
      AllIsEverything(mask);
      assert false;
    }

    /** Removing an unknown router panics on `unwrap`. */
    method Remove(id: Uuid)
      requires Valid() && id in slots
      modifies this
      ensures Valid() && State() == Release(old(State()), id)
    {
      hide Bits, Toggle, AllocInv;
      ReleaseKeeps(State(), id);
      ToggleOff(Bits(mask), slots[id]);
      ToggleIsSymmetricDifference(mask, owners[id]);
      mask := Toggle(mask, owners[id]);
      owners := owners - {id};
      slots := slots - {id};
    }
  }
}
