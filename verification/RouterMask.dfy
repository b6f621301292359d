/** Router masks (src/utils/router_mask.rs): the operations on 64-bit words, and the proof
    that each of them is the corresponding operation on sets of bit positions. Every other
    module reasons about the sets. */
module RouterMasks {

  datatype RouterMask = RouterMask(word: bv64)

  const ALL := RouterMask(0xFFFF_FFFF_FFFF_FFFF)
  const NONE := RouterMask(0)

  predicate Contains(mask: RouterMask, other: RouterMask) {
    other.word != 0 && mask.word & other.word == other.word
  }

  function Without(mask: RouterMask, other: RouterMask): RouterMask {
    RouterMask(mask.word & !other.word)
  }

  function Combine(mask: RouterMask, other: RouterMask): RouterMask {
    RouterMask(mask.word | other.word)
  }

  /** The masks' exclusive or. */
  function Toggle(mask: RouterMask, other: RouterMask): RouterMask {
    RouterMask(mask.word ^ other.word)
  }

  function Intersect(mask: RouterMask, other: RouterMask): RouterMask {
    RouterMask(mask.word & other.word)
  }

  function Complement(mask: RouterMask): RouterMask {
    RouterMask(!mask.word)
  }

  /** The word `1 << i`. */
  function Shifted(i: nat): bv64
    requires i < 64
  {
    if i == 0 then 1 else Shifted(i - 1) << 1
  }

  /** The mask has a bit of `word` set. */
  predicate Meets(mask: RouterMask, word: bv64) {
    mask.word & word != 0
  }

  /** Bit `i` of the mask is set. */
  predicate HasBit(mask: RouterMask, i: nat) {
    i < 64 && Meets(mask, Shifted(i))
  }

  /** The positions of the set bits. */
  function Bits(mask: RouterMask): set<nat> {
    set i: nat | 0 <= i < 64 && HasBit(mask, i)
  }

  function CountBelow(mask: RouterMask, k: nat): nat
    requires k <= 64
  {
    if k == 0 then 0
    else CountBelow(mask, k - 1) + if HasBit(mask, k - 1) then 1 else 0
  }

  /** The population count, position by position. */
  function CountOnes(mask: RouterMask): nat {
    CountBelow(mask, 64)
  }

  // ---- words with a single bit ----

  predicate IsBit(word: bv64) {
    word != 0 && word & (word - 1) == 0
  }

  lemma BitsDisjoint(a: bv64, b: bv64)
    requires IsBit(a) && IsBit(b) && a != b
    ensures a & b == 0
  {
    if a < b {} else {}
  }

  lemma ShiftedBit(b: bv64)
    requires IsBit(b) && b << 1 != 0
    ensures IsBit(b << 1) && b < b << 1
  {
  }

  lemma NonzeroBit(b: bv64)
    requires IsBit(b)
    ensures b != 0
  {
  }

  lemma {:induction false} ZeroStaysZero(i: nat, n: nat)
    requires i <= n < 64 && Shifted(i) == 0
    ensures Shifted(n) == 0
  {
    if i < n {
      ZeroStaysZero(i, n - 1);
    }
  }

  lemma TopBit()
    ensures Shifted(63) == 0x8000_0000_0000_0000
  {
    assert Shifted(8) == 0x100;
    assert Shifted(16) == 0x1_0000;
    assert Shifted(32) == 0x1_0000_0000;
    assert Shifted(48) == 0x1_0000_0000_0000;
  }

  lemma {:induction false} ShiftedIsBit(i: nat)
    requires i < 64
    ensures IsBit(Shifted(i))
    ensures 0 < i ==> Shifted(i - 1) < Shifted(i)
  {
    TopBit();
    if Shifted(i) == 0 {
      ZeroStaysZero(i, 63);
    }
    if i != 0 {
      ShiftedIsBit(i - 1);
      ShiftedBit(Shifted(i - 1));
    }
  }

  lemma {:induction false} ShiftedIncreases(i: nat, j: nat)
    requires i < j < 64
    ensures Shifted(i) < Shifted(j)
  {
    ShiftedIsBit(j);
    if i < j - 1 {
      ShiftedIncreases(i, j - 1);
    }
  }

  lemma PositionsDisjoint(i: nat, j: nat)
    requires i < 64 && j < 64
    ensures Shifted(i) & Shifted(j) == if i == j then Shifted(i) else 0
  {
    hide Shifted, IsBit;
    var a, b := Shifted(i), Shifted(j);
    if i == j {
      AndItself(a);
    } else {
      ShiftedIsBit(i);
      ShiftedIsBit(j);
      ShiftedDiffer(i, j);
      BitsDisjoint(a, b);
    }
  }

  lemma AndItself(word: bv64)
    ensures word & word == word
  {
  }

  lemma ShiftedDiffer(i: nat, j: nat)
    requires i < 64 && j < 64 && i != j
    ensures Shifted(i) != Shifted(j)
  {
    hide Shifted;
    if i < j {
      ShiftedIncreases(i, j);
    } else {
      ShiftedIncreases(j, i);
    }
  }

  /** The word with the `k` lowest positions set. */
  function Low(k: nat): bv64
    requires k <= 64
  {
    if k == 0 then 0 else Low(k - 1) | Shifted(k - 1)
  }

  lemma LowIsAll()
    ensures Low(64) == ALL.word
  {
    assert Low(8) == 0xFF && Shifted(8) == 0x100;
    assert Low(16) == 0xFFFF && Shifted(16) == 0x1_0000;
    assert Low(24) == 0xFF_FFFF && Shifted(24) == 0x100_0000;
    assert Low(32) == 0xFFFF_FFFF && Shifted(32) == 0x1_0000_0000;
    assert Low(40) == 0xFF_FFFF_FFFF && Shifted(40) == 0x100_0000_0000;
    assert Low(48) == 0xFFFF_FFFF_FFFF && Shifted(48) == 0x1_0000_0000_0000;
    assert Low(56) == 0xFF_FFFF_FFFF_FFFF && Shifted(56) == 0x100_0000_0000_0000;
  }

  lemma AndOverOr(word: bv64, a: bv64, b: bv64)
    requires word & a == 0 && !Meets(RouterMask(word), b)
    ensures word & (a | b) == 0
  {
  }

  lemma {:induction false} ClearBelow(mask: RouterMask, k: nat)
    requires k <= 64 && forall i | 0 <= i < k :: !HasBit(mask, i)
    ensures mask.word & Low(k) == 0
  {
    hide Shifted, Meets;
    if k != 0 {
      ClearBelow(mask, k - 1);
      assert !HasBit(mask, k - 1);
      AndOverOr(mask.word, Low(k - 1), Shifted(k - 1));
    }
  }

  lemma ZeroMeetsNothing(other: bv64)
    ensures !Meets(NONE, other)
  {
  }

  /** The empty mask is the only one without positions. */
  lemma NoPosition(mask: RouterMask)
    ensures Bits(mask) == {} <==> mask == NONE
  {
    hide Shifted, Meets;
    if Bits(mask) == {} {
      forall i | 0 <= i < 64 ensures !HasBit(mask, i) {
        assert i !in Bits(mask);
      }
      ClearBelow(mask, 64);
      LowIsAll();
    } else {
      var i :| i in Bits(mask);
      ZeroMeetsNothing(Shifted(i));
    }
  }

  // ---- the word operations are set operations ----

  lemma CombineAt(a: RouterMask, b: RouterMask, x: bv64)
    requires IsBit(x)
    ensures Meets(Combine(a, b), x) <==> Meets(a, x) || Meets(b, x)
  {
  }

  lemma IntersectAt(a: RouterMask, b: RouterMask, x: bv64)
    requires IsBit(x)
    ensures Meets(Intersect(a, b), x) <==> Meets(a, x) && Meets(b, x)
  {
  }

  lemma ComplementAt(b: RouterMask, x: bv64)
    requires IsBit(x)
    ensures Meets(Complement(b), x) <==> !Meets(b, x)
  {
  }

  lemma HasCombine(a: RouterMask, b: RouterMask, i: nat)
    requires i < 64
    ensures HasBit(Combine(a, b), i) <==> HasBit(a, i) || HasBit(b, i)
  {
    hide Meets, Shifted, IsBit, Combine;
    ShiftedIsBit(i);
    CombineAt(a, b, Shifted(i));
  }

  lemma HasIntersect(a: RouterMask, b: RouterMask, i: nat)
    requires i < 64
    ensures HasBit(Intersect(a, b), i) <==> HasBit(a, i) && HasBit(b, i)
  {
    hide Meets, Shifted, IsBit, Intersect;
    ShiftedIsBit(i);
    IntersectAt(a, b, Shifted(i));
  }

  lemma HasComplement(b: RouterMask, i: nat)
    requires i < 64
    ensures HasBit(Complement(b), i) <==> !HasBit(b, i)
  {
    hide Meets, Shifted, IsBit, Complement;
    ShiftedIsBit(i);
    ComplementAt(b, Shifted(i));
  }

  /** `combine` is union. */
  lemma CombineIsUnion(a: RouterMask, b: RouterMask)
    ensures Bits(Combine(a, b)) == Bits(a) + Bits(b)
  {
    hide HasBit, Combine;
    forall i: nat | i < 64
      ensures HasBit(Combine(a, b), i) <==> HasBit(a, i) || HasBit(b, i)
    {
      HasCombine(a, b, i);
    }
  }

  lemma IntersectIsIntersection(a: RouterMask, b: RouterMask)
    ensures Bits(Intersect(a, b)) == Bits(a) * Bits(b)
  {
    hide HasBit, Intersect;
    forall i: nat | i < 64
      ensures HasBit(Intersect(a, b), i) <==> HasBit(a, i) && HasBit(b, i)
    {
      HasIntersect(a, b, i);
    }
  }

  lemma ComplementIsComplement(b: RouterMask)
    ensures forall i: nat | i < 64 :: i in Bits(Complement(b)) <==> i !in Bits(b)
  {
    hide HasBit, Complement;
    forall i: nat | i < 64
      ensures HasBit(Complement(b), i) <==> !HasBit(b, i)
    {
      HasComplement(b, i);
    }
  }

  lemma BitsInRange(a: RouterMask)
    ensures forall i <- Bits(a) :: i < 64
  {
  }

  lemma WithoutAsIntersect(a: RouterMask, b: RouterMask)
    ensures Without(a, b) == Intersect(a, Complement(b))
  {
  }

  /** `remove` is difference. */
  lemma WithoutIsDifference(a: RouterMask, b: RouterMask)
    ensures Bits(Without(a, b)) == Bits(a) - Bits(b)
  {
    hide Bits, Without, Intersect, Complement;
    BitsInRange(a);
    WithoutAsIntersect(a, b);
    IntersectIsIntersection(a, Complement(b));
    ComplementIsComplement(b);
  }

  lemma ToggleAsCombine(a: RouterMask, b: RouterMask)
    ensures Toggle(a, b) == Combine(Without(a, b), Without(b, a))
  {
  }

  /** Exclusive or is symmetric difference. */
  lemma ToggleIsSymmetricDifference(a: RouterMask, b: RouterMask)
    ensures Bits(Toggle(a, b)) == (Bits(a) - Bits(b)) + (Bits(b) - Bits(a))
  {
    hide Bits, Toggle, Combine, Without;
    ToggleAsCombine(a, b);
    CombineIsUnion(Without(a, b), Without(b, a));
    WithoutIsDifference(a, b);
    WithoutIsDifference(b, a);
  }

  lemma ToggleNone(a: RouterMask, b: RouterMask)
    requires Toggle(a, b) == NONE
    ensures a == b
  {
  }

  /** Masks are equal exactly when they have the same positions. */
  lemma SameBits(a: RouterMask, b: RouterMask)
    ensures a == b <==> Bits(a) == Bits(b)
  {
    hide Bits, Toggle;
    if Bits(a) == Bits(b) {
      ToggleIsSymmetricDifference(a, b);
      NoPosition(Toggle(a, b));
      ToggleNone(a, b);
    }
  }

  lemma ContainsAsIntersect(mask: RouterMask, other: RouterMask)
    ensures Contains(mask, other) <==> other != NONE && Intersect(mask, other) == other
  {
  }

  /** `contains` is inclusion of a nonempty set. */
  lemma ContainsIsSuperset(mask: RouterMask, other: RouterMask)
    ensures Contains(mask, other) <==> Bits(other) != {} && Bits(other) <= Bits(mask)
  {
    hide Bits, Contains, Intersect;
    ContainsAsIntersect(mask, other);
    NoPosition(other);
    IntersectIsIntersection(mask, other);
    SameBits(Intersect(mask, other), other);
  }

  lemma BitAt(i: nat, j: nat)
    requires i < 64 && j < 64
    ensures Meets(RouterMask(Shifted(i)), Shifted(j)) <==> i == j
  {
    hide Shifted, IsBit;
    PositionsDisjoint(i, j);
    ShiftedIsBit(i);
    NonzeroBit(Shifted(i));
  }

  /** `1 << i` is the singleton of `i`. */
  lemma BitIsSingleton(i: nat)
    requires i < 64
    ensures Bits(RouterMask(Shifted(i))) == {i}
  {
    hide Shifted, Meets;
    forall j: nat | j < 64
      ensures HasBit(RouterMask(Shifted(i)), j) <==> i == j
    {
      BitAt(i, j);
    }
  }

  lemma AllMeets(x: bv64)
    requires IsBit(x)
    ensures Meets(ALL, x)
  {
  }

  /** The full mask is the only one holding all 64 positions. */
  lemma AllIsEverything(mask: RouterMask)
    ensures mask == ALL <==> forall i: nat | i < 64 :: i in Bits(mask)
  {
    hide Meets, Shifted, IsBit;
    forall i: nat | i < 64 ensures HasBit(ALL, i) {
      ShiftedIsBit(i);
      AllMeets(Shifted(i));
    }
    if forall i: nat | i < 64 :: i in Bits(mask) {
      assert Bits(mask) == Bits(ALL);
      SameBits(mask, ALL);
    }
  }

  // ---- counting ----

  lemma {:induction false} CountIsSizeBelow(mask: RouterMask, k: nat)
    requires k <= 64
    ensures CountBelow(mask, k) == |set i: nat | 0 <= i < k && HasBit(mask, i)|
  {
    hide HasBit;
    var here := set i: nat | 0 <= i < k && HasBit(mask, i);
    if k != 0 {
      CountIsSizeBelow(mask, k - 1);
      var below := set i: nat | 0 <= i < k - 1 && HasBit(mask, i);
      assert here == if HasBit(mask, k - 1) then below + {k - 1} else below;
    }
  }

  /** `len` counts the positions, at most 64. */
  lemma CountIsSize(mask: RouterMask)
    ensures CountOnes(mask) == |Bits(mask)|
  {
    hide HasBit;
    CountIsSizeBelow(mask, 64);
    assert Bits(mask) == set i: nat | 0 <= i < 64 && HasBit(mask, i);
  }
}
