/** IP addresses and prefixes: coverage, longest match, and the overlap filter
    (src/components/filters.rs). Addresses are unsigned integers of 32 or 128 bits. */
module IpNetworks {
  import opened Wrappers

  datatype Family = V4 | V6

  function Width(family: Family): nat {
    if family == V4 then 32 else 128
  }

  function Pow2(n: nat): (r: nat)
    ensures 0 < r
  {
    if n == 0 then 1 else 2 * Pow2(n - 1)
  }

  datatype Address = Address(family: Family, bits: nat)

  type IpAddr = a: Address | a.bits < Pow2(Width(a.family)) witness Address(V4, 0)

  /** `x` with its `host` lowest bits cleared. */
  function Trunc(x: nat, host: nat): nat {
    if host == 0 then x else 2 * Trunc(x / 2, host - 1)
  }

  datatype Network = Network(family: Family, base: nat, len: nat)

  predicate Canonical(n: Network) {
    && n.len <= Width(n.family)
    && n.base < Pow2(Width(n.family))
    && Trunc(n.base, Width(n.family) - n.len) == n.base
  }

  /** A prefix whose host bits are zero; `IpNetwork::new` accepts no others. */
  type IpNetwork = n: Network | Canonical(n) ghost witness (ZeroIsCanonical(); Network(V4, 0, 0))

  function NetworkAddress(n: IpNetwork): IpAddr {
    Address(n.family, n.base)
  }

  predicate Covers(n: IpNetwork, a: IpAddr) {
    n.family == a.family && Trunc(a.bits, Width(a.family) - n.len) == n.base
  }

  /** Addresses are ordered by family, then numerically. */
  predicate Below(a: IpAddr, b: IpAddr) {
    if a.family == b.family then a.bits < b.bits else a.family == V4
  }

  // ---- truncation ----

  lemma {:induction false} TruncZero(host: nat)
    ensures Trunc(0, host) == 0
  {
    if host != 0 {
      TruncZero(host - 1);
    }
  }

  lemma ZeroIsCanonical()
    ensures Canonical(Network(V4, 0, 0))
  {
    TruncZero(32);
  }

  lemma {:induction false} TruncBelow(x: nat, host: nat)
    ensures Trunc(x, host) <= x
  {
    if host != 0 {
      TruncBelow(x / 2, host - 1);
    }
  }

  /** Clearing more bits forgets that fewer were cleared before. */
  lemma {:induction false} TruncTrunc(x: nat, fine: nat, coarse: nat)
    requires fine <= coarse
    ensures Trunc(Trunc(x, fine), coarse) == Trunc(x, coarse)
  {
    if fine != 0 {
      TruncTrunc(x / 2, fine - 1, coarse - 1);
    }
  }

  lemma {:induction false} Pow2Sum(a: nat, b: nat)
    ensures Pow2(a + b) == Pow2(a) * Pow2(b)
  {
    if a != 0 {
      Pow2Sum(a - 1, b);
      assert 2 * (Pow2(a - 1) * Pow2(b)) == (2 * Pow2(a - 1)) * Pow2(b);
    }
  }

  /** The number of addresses of each family. */
  lemma FamilySizes()
    ensures Width(V4) == 32 && Pow2(32) == 0x1_0000_0000
    ensures Width(V6) == 128 && Pow2(128) == 0x1_0000_0000_0000_0000_0000_0000_0000_0000
  {
    hide Pow2;
    assert Pow2(2) == 4 by {
      Pow2OfTwo();
    }
    Pow2Sum(2, 2);
    Pow2Sum(4, 4);
    Pow2Sum(8, 8);
    Pow2Sum(16, 16);
    Pow2Sum(32, 32);
    Pow2Sum(64, 64);
  }

  lemma Pow2OfTwo()
    ensures Pow2(2) == 4
  {
    assert Pow2(1) == 2 * Pow2(0);
  }

  /** Clearing the lowest bits leaves the multiple of their power of two just below. */
  lemma {:induction false} TruncIsMultiple(x: nat, host: nat) returns (q: nat)
    ensures Trunc(x, host) == q * Pow2(host) && q * Pow2(host) <= x < (q + 1) * Pow2(host)
  {
    if host == 0 {
      q := x;
    } else {
      q := TruncIsMultiple(x / 2, host - 1);
      var half := Pow2(host - 1);
      assert q * (2 * half) == 2 * (q * half);
      assert (q + 1) * (2 * half) == 2 * ((q + 1) * half);
    }
  }

  lemma ScaleKeepsOrder(p: nat, q: nat, size: nat)
    ensures p < q ==> (p + 1) * size <= q * size
  {
    if p < q {
      assert q * size == (p + 1) * size + (q - p - 1) * size;
    }
  }

  lemma SameMultiple(p: nat, q: nat, size: nat, x: nat)
    requires p * size <= x < (p + 1) * size && q * size <= x < (q + 1) * size
    ensures p == q
  {
    ScaleKeepsOrder(p, q, size);
    ScaleKeepsOrder(q, p, size);
  }

  /** A number is left alone exactly when its lowest bits are zero. */
  lemma TruncFixes(x: nat, host: nat)
    ensures Trunc(x, host) == x <==> x % Pow2(host) == 0
  {
    hide Trunc, Pow2;
    var size := Pow2(host);
    var q := TruncIsMultiple(x, host);
    var p := x / size;
    DivideWithRest(x, size);
    SameMultiple(p, q, size, x);
  }

  lemma DivideWithRest(x: nat, size: nat)
    requires size > 0
    ensures x == (x / size) * size + x % size && (x / size) * size <= x < (x / size + 1) * size
  {
    assert (x / size + 1) * size == (x / size) * size + size;
  }

  /** What a prefix is, in numbers: a length within the width of its family, and an address that is a
      multiple of the number of addresses the prefix has. */
  lemma CanonicalIff(n: Network)
    ensures var width := if n.family == V4 then 32 else 128;
            Canonical(n) <==> n.len <= width && n.base < Pow2(width) && n.base % Pow2(width - n.len) == 0
  {
    if n.len <= Width(n.family) {
      TruncFixes(n.base, Width(n.family) - n.len);
    }
  }

  // ---- coverage ----

  /** What a prefix covers, in numbers: the addresses of its family from its own on, as many as its
      host bits allow. */
  lemma CoversIff(n: IpNetwork, a: IpAddr)
    ensures var width := if n.family == V4 then 32 else 128;
            Covers(n, a) <==> n.family == a.family && n.base <= a.bits < n.base + Pow2(width - n.len)
  {
    var host := Width(n.family) - n.len;
    var size := Pow2(host);
    var p := TruncIsMultiple(n.base, host);
    var q := TruncIsMultiple(a.bits, host);
    assert (p + 1) * size == p * size + size && (q + 1) * size == q * size + size;
    if n.base <= a.bits < n.base + size {
      SameMultiple(p, q, size, a.bits);
    }
  }

  /** The prefix of length `len` around an address. */
  function Around(a: IpAddr, len: nat): (n: IpNetwork)
    requires len <= Width(a.family)
    ensures Covers(n, a) && n.len == len
  {
    var host := Width(a.family) - len;
    TruncTrunc(a.bits, host, host);
    TruncBelow(a.bits, host);
    Network(a.family, Trunc(a.bits, host), len)
  }

  /** Of each length, one prefix covers an address. */
  lemma CoversIsAround(n: IpNetwork, a: IpAddr)
    requires Covers(n, a)
    ensures n.len <= Width(a.family) && n == Around(a, n.len)
  {
  }

  lemma CoversOwnAddress(n: IpNetwork)
    ensures Covers(n, NetworkAddress(n))
  {
  }

  /** The key the table's longest match returns: `len` counts down from the full width. */
  function LongestFrom(keys: set<IpNetwork>, a: IpAddr, len: nat): Option<IpNetwork>
    requires len <= Width(a.family)
    decreases len
  {
    if Around(a, len) in keys then Some(Around(a, len))
    else if len == 0 then None
    else LongestFrom(keys, a, len - 1)
  }

  function LongestMatch(keys: set<IpNetwork>, a: IpAddr): Option<IpNetwork> {
    LongestFrom(keys, a, Width(a.family))
  }

  ghost predicate IsLongest(keys: set<IpNetwork>, a: IpAddr, n: IpNetwork) {
    && n in keys && Covers(n, a)
    && forall m <- keys :: Covers(m, a) && m != n ==> m.len < n.len
  }

  lemma {:induction false} LongestFromIsLongest(keys: set<IpNetwork>, a: IpAddr, len: nat)
    requires len <= Width(a.family)
    requires forall m <- keys :: Covers(m, a) ==> m.len <= len
    ensures match LongestFrom(keys, a, len)
            case Some(n) => IsLongest(keys, a, n)
            case None => forall m <- keys :: !Covers(m, a)
    decreases len
  {
    forall m <- keys | Covers(m, a)
      ensures m == Around(a, m.len)
    {
      CoversIsAround(m, a);
    }
    if Around(a, len) !in keys && len != 0 {
      LongestFromIsLongest(keys, a, len - 1);
    }
  }

  /** Longest match returns the unique longest covering key, and fails when no key covers. */
  lemma LongestMatchIsLongest(keys: set<IpNetwork>, a: IpAddr)
    ensures match LongestMatch(keys, a)
            case Some(n) => IsLongest(keys, a, n)
            case None => forall m <- keys :: !Covers(m, a)
  {
    LongestFromIsLongest(keys, a, Width(a.family));
  }

  lemma LongestIsUnique(keys: set<IpNetwork>, a: IpAddr, n: IpNetwork)
    requires IsLongest(keys, a, n)
    ensures LongestMatch(keys, a) == Some(n)
  {
    LongestMatchIsLongest(keys, a);
  }

  // ---- the network filter ----

  /** `IpNetworkBlacklistFilter::filter`: whichever prefix is shorter must cover the other's
      network address. */
  predicate BlacklistFilter(own: IpNetwork, prefix: IpNetwork) {
    if own.len <= prefix.len then Covers(own, NetworkAddress(prefix))
    else Covers(prefix, NetworkAddress(own))
  }

  ghost predicate Overlap(a: IpNetwork, b: IpNetwork) {
    exists x: IpAddr :: Covers(a, x) && Covers(b, x)
  }

  /** A prefix covering an address of a longer one covers its network address. */
  lemma ShorterCoversBase(short: IpNetwork, long: IpNetwork, x: IpAddr)
    requires short.len <= long.len && Covers(short, x) && Covers(long, x)
    ensures Covers(short, NetworkAddress(long))
  {
    var w := Width(x.family);
    TruncTrunc(x.bits, w - long.len, w - short.len);
  }

  /** The filter returns true exactly when the two prefixes share an address, for any two
      prefixes of either family. */
  lemma FilterIsOverlap(own: IpNetwork, prefix: IpNetwork)
    ensures BlacklistFilter(own, prefix) <==> Overlap(own, prefix)
  {
    CoversOwnAddress(own);
    CoversOwnAddress(prefix);
    if Overlap(own, prefix) {
      var x: IpAddr :| Covers(own, x) && Covers(prefix, x);
      if own.len <= prefix.len {
        ShorterCoversBase(own, prefix, x);
      } else {
        ShorterCoversBase(prefix, own, x);
      }
    }
  }

  /** Prefixes that overlap are nested: every address of the longer is in the shorter. */
  lemma OverlapIsNesting(short: IpNetwork, long: IpNetwork, x: IpAddr)
    requires short.len <= long.len && BlacklistFilter(short, long) && Covers(long, x)
    ensures Covers(short, x)
  {
    var w := Width(x.family);
    TruncTrunc(x.bits, w - long.len, w - short.len);
    FilterIsOverlap(short, long);
  }

  lemma FilterIsSymmetric(a: IpNetwork, b: IpNetwork)
    ensures BlacklistFilter(a, b) == BlacklistFilter(b, a)
  {
    FilterIsOverlap(a, b);
    FilterIsOverlap(b, a);
  }
}
