/**
 The buddy allocator for large blocks: block headers in memory, one free list per level threaded
 through the headers, and buddies found by XOR.  Addresses are offsets from the start of the
 region; block sizes are powers of two from basic = 2^p up to the size of the top level.

 The loop of `free` tests only that the buddy is free, not that it has the block's size.  `Free` is
 proved to leave a sound heap behind exactly if every free buddy the loop meets has that size.
 */
module BuddyAllocator {

  import opened Arithmetic
  import opened Common

  // ---------------------------------------------------------------------------------------
  // Powers of two and XOR
  // ---------------------------------------------------------------------------------------

  function Pow2(k: nat): (r: nat)
    ensures r > 0
  {
    if k == 0 then 1 else 2 * Pow2(k - 1)
  }

  function Log2(n: nat): nat {
    if n <= 1 then 0 else 1 + Log2(n / 2)
  }

  lemma {:induction false} LogOfPow(k: nat)
    ensures Log2(Pow2(k)) == k
  {
    if k > 0 { LogOfPow(k - 1); }
  }

  lemma {:induction false} PowDivides(j: nat, k: nat)
    requires j <= k
    ensures Pow2(k) % Pow2(j) == 0 && Pow2(j) <= Pow2(k)
  {
    if j == k {
      Unique(Pow2(k), Pow2(j), 1, 0);
    } else {
      PowDivides(j, k - 1);
      var q := Pow2(k - 1) / Pow2(j);
      assert Pow2(k) == (2 * q) * Pow2(j);
      Unique(Pow2(k), Pow2(j), 2 * q, 0);
    }
  }

  lemma PowOrder(j: nat, k: nat)
    ensures j < k <==> Pow2(j) < Pow2(k)
  {
  }

  function Xor(a: nat, b: nat): nat {
    if a == 0 && b == 0 then 0 else 2 * Xor(a / 2, b / 2) + (a + b) % 2
  }

  lemma {:induction false} XorZero(a: nat)
    ensures Xor(a, 0) == a
  {
    if a > 0 { XorZero(a / 2); }
  }

  // The other half of the aligned pair that a block of the given size belongs to.
  function OtherHalf(a: nat, size: nat): nat
    requires size > 0
  {
    if a / size % 2 == 0 then a + size else if a >= size then a - size else 0
  }

  function Flip(q: nat): nat {
    if q % 2 == 0 then q + 1 else q - 1
  }

  lemma {:induction false} XorFlips(q: nat, k: nat)
    ensures Xor(q * Pow2(k), Pow2(k)) == Flip(q) * Pow2(k)
  {
    hide Xor, Flip;
    if k == 0 {
      XorOne(q);
    } else {
      var h := Pow2(k - 1);
      XorFlips(q, k - 1);
      TimesTwo(q, h);
      TimesTwo(Flip(q), h);
      XorOfDoubles(q * h, h);
    }
  }

  lemma XorOne(q: nat)
    ensures Xor(q, 1) == Flip(q)
  {
    XorZero(q / 2);
  }

  lemma XorOfDoubles(a: nat, b: nat)
    ensures Xor(2 * a, 2 * b) == 2 * Xor(a, b)
  {
    assert (2 * a) / 2 == a && (2 * b) / 2 == b && (2 * a + 2 * b) % 2 == 0;
  }

  // Flipping the size bit of an aligned offset gives the other half.
  lemma XorIsOtherHalf(a: nat, k: nat)
    requires a % Pow2(k) == 0
    ensures Xor(a, Pow2(k)) == OtherHalf(a, Pow2(k))
  {
    hide Xor;
    var m, q := Pow2(k), a / Pow2(k);
    assert a == q * m;
    XorFlips(q, k);
    hide Pow2;
    Neighbours(q, m);
  }

  lemma Neighbours(q: nat, m: nat)
    ensures (q + 1) * m == q * m + m && (q > 0 ==> (q - 1) * m == q * m - m && q * m >= m)
  {
  }

  // --- multiples ------------------------------------------------------------------------------------

  // Multiples of m that are less than m apart are equal or in order.
  lemma AlignedBelow(s: nat, t: nat, m: nat)
    requires m > 0 && s % m == 0 && t % m == 0 && s < t + m
    ensures s <= t
  {
    var a, b := s / m, t / m;
    assert s == a * m && t == b * m;
    Neighbours(b, m);
    if a > b { Scaled(b + 1, a, m); } else { Scaled(a, b, m); }
  }

  lemma SumAligned(a: nat, b: nat, m: nat)
    requires m > 0 && a % m == 0 && b % m == 0
    ensures (a + b) % m == 0
  {
    var x, y := a / m, b / m;
    assert a == x * m && b == y * m && a + b == (x + y) * m;
    Unique(a + b, m, x + y, 0);
  }

  // ---------------------------------------------------------------------------------------
  // Tilings of the region
  // ---------------------------------------------------------------------------------------

  // Level i holds blocks of 2^(p+i) bytes; the region is `count` blocks of the top level.
  datatype Geometry = Geometry(p: nat, levels: nat, count: nat)

  function Size(g: Geometry, i: nat): (r: nat)
    ensures r > 0
  {
    Pow2(g.p + i)
  }

  function Total(g: Geometry): nat {
    if g.levels == 0 then 0 else g.count * Size(g, g.levels - 1)
  }

  // The level of the block that starts at each offset.
  type Tiling = map<nat, nat>

  function EndOf(g: Geometry, T: Tiling, o: nat): nat
    requires o in T
  {
    o + Size(g, T[o])
  }

  predicate Aligned(g: Geometry, T: Tiling) {
    forall o {:trigger T[o]} :: o in T ==> T[o] < g.levels && o % Size(g, T[o]) == 0 && EndOf(g, T, o) <= Total(g)
  }

  predicate Disjoint(g: Geometry, T: Tiling) {
    forall o, q {:trigger T[o], T[q]} :: o in T && q in T && o < q ==> EndOf(g, T, o) <= q
  }

  predicate InBlock(g: Geometry, T: Tiling, x: nat, o: nat) {
    o in T && o <= x < EndOf(g, T, o)
  }

  ghost predicate Covered(g: Geometry, T: Tiling, x: nat) {
    exists o :: InBlock(g, T, x, o)
  }

  ghost predicate Full(g: Geometry, T: Tiling) {
    forall x: nat :: x < Total(g) ==> Covered(g, T, x)
  }

  ghost predicate Tiles(g: Geometry, T: Tiling) {
    Aligned(g, T) && Disjoint(g, T) && Full(g, T)
  }

  lemma SizeFacts(g: Geometry, j: nat, i: nat)
    requires j <= i
    ensures Size(g, i) % Size(g, j) == 0 && Size(g, j) <= Size(g, i) && Size(g, i + 1) == 2 * Size(g, i)
    ensures i < g.levels ==> Total(g) % Size(g, i) == 0
  {
    PowDivides(g.p + j, g.p + i);
    if i < g.levels {
      PowDivides(g.p + i, g.p + g.levels - 1);
      Unique(Total(g), Size(g, g.levels - 1), g.count, 0);
      DividesThrough(Total(g), Size(g, g.levels - 1), Size(g, i));
    }
  }

  // A block and its other half make an aligned block of twice the size.
  lemma HalfFacts(a: nat, m: nat)
    requires m > 0 && a % m == 0
    ensures var b := OtherHalf(a, m);
      && b % m == 0 && OtherHalf(b, m) == a && (b == a + m || a == b + m)
      && (if a < b then a else b) % (2 * m) == 0
  {
    var q := a / m;
    assert a == q * m;
    OtherIsFlip(q, m);
    OtherIsFlip(Flip(q), m);
    Unique(Flip(q) * m, m, Flip(q), 0);
    Neighbours(q, m);
    PairStart(q, m);
    hide OtherHalf;
  }

  lemma OtherIsFlip(q: nat, m: nat)
    requires m > 0
    ensures OtherHalf(q * m, m) == Flip(q) * m
  {
    Unique(q * m, m, q, 0);
    Neighbours(q, m);
  }

  lemma PairStart(q: nat, m: nat)
    requires m > 0
    ensures (if q % 2 == 0 then q * m else q * m - m) % (2 * m) == 0
  {
    TimesTwo(q / 2, m);
    Neighbours(q, m);
    var e := q - q % 2;
    assert e == 2 * (q / 2);
    assert e * m == (q / 2) * (2 * m) by { HalfTimes(q / 2, m); }
    Unique(e * m, 2 * m, q / 2, 0);
  }

  lemma HalfTimes(h: nat, m: nat)
    ensures (2 * h) * m == h * (2 * m)
  {
  }

  // The block over an aligned offset whose block is no larger starts there.
  lemma StartsThere(g: Geometry, T: Tiling, x: nat, s: nat)
    requires Aligned(g, T) && InBlock(g, T, x, s) && x % Size(g, T[s]) == 0
    ensures s == x
  {
    hide Size, Aligned;
    assert s % Size(g, T[s]) == 0 by { StartAligned(g, T, s); }
    AlignedBelow(x, s, Size(g, T[s]));
  }

  lemma StartAligned(g: Geometry, T: Tiling, s: nat)
    requires Aligned(g, T) && s in T
    ensures T[s] < g.levels && s % Size(g, T[s]) == 0 && EndOf(g, T, s) <= Total(g)
  {
  }

  // A block over one half of an aligned pair of level k, the other half of which starts with a block
  // that is no larger, is no larger either.
  lemma HalfIsNotBigger(g: Geometry, T: Tiling, o: nat, k: nat, s: nat)
    requires Aligned(g, T) && Disjoint(g, T) && o in T && T[o] <= k < g.levels - 1 && o % Size(g, k) == 0
    requires InBlock(g, T, OtherHalf(o, Size(g, k)), s)
    ensures T[s] <= k
  {
    hide Size, Aligned;
    var j, m, b := T[s], Size(g, k), OtherHalf(o, Size(g, k));
    StartAligned(g, T, o);
    StartAligned(g, T, s);
    HalfFacts(o, m);
    if j > k {
      var P := if o < b then o else b;
      SizeFacts(g, k, k);
      SizeFacts(g, k + 1, j);
      DividesThrough(s, Size(g, j), 2 * m);
      AlignedBelow(s, P, 2 * m);
      SumAligned(s, Size(g, j), 2 * m);
      if s + Size(g, j) < P + 2 * m { AlignedBelow(s + Size(g, j), P, 2 * m); }
    }
  }

  lemma HalfIsLive(g: Geometry, T: Tiling, o: nat, k: nat)
    requires Tiles(g, T) && o in T && T[o] <= k < g.levels - 1 && o % Size(g, k) == 0
    ensures var b := OtherHalf(o, Size(g, k)); b in T && T[b] <= k && b + Size(g, k) <= Total(g)
  {
    hide Size, Aligned, Disjoint;
    var m, b := Size(g, k), OtherHalf(o, Size(g, k));
    StartAligned(g, T, o);
    HalfFacts(o, m);
    SizeFacts(g, k, k);
    SizeFacts(g, k + 1, k + 1);
    var P := if o < b then o else b;
    if Total(g) < P + 2 * m { AlignedBelow(Total(g), P, 2 * m); }
    assert b < Total(g);
    assert Covered(g, T, b);
    var s :| InBlock(g, T, b, s);
    HalfIsNotBigger(g, T, o, k, s);
    SizeFacts(g, T[s], k);
    DividesThrough(b, m, Size(g, T[s]));
    StartsThere(g, T, b, s);
  }

  // A live header always sits at the XOR buddy address of a block below the top level.
  lemma BuddyIsLive(g: Geometry, T: Tiling, o: nat)
    requires Tiles(g, T) && o in T && T[o] < g.levels - 1
    ensures var b := OtherHalf(o, Size(g, T[o])); b in T && T[b] <= T[o] && b + Size(g, T[o]) <= Total(g)
  {
    hide Size, Disjoint;
    HalfIsLive(g, T, o, T[o]);
  }

  // Walking from a block by its size leads to the next block or to the end of the region.
  lemma EndIsStart(g: Geometry, T: Tiling, o: nat)
    requires Tiles(g, T) && o in T
    ensures EndOf(g, T, o) == Total(g) || EndOf(g, T, o) in T
  {
    hide Size, Aligned, Total;
    var e := EndOf(g, T, o);
    StartAligned(g, T, o);
    if e < Total(g) {
      assert Covered(g, T, e);
      var s: nat :| InBlock(g, T, e, s);
      NotInside(g, T, o, s, e);
    }
  }

  lemma NotInside(g: Geometry, T: Tiling, o: nat, s: nat, e: nat)
    requires Disjoint(g, T) && o in T && e == EndOf(g, T, o) && InBlock(g, T, e, s)
    ensures s == e
  {
  }

  // --- splitting and merging ------------------------------------------------------------------------

  function SplitAt(g: Geometry, T: Tiling, o: nat): Tiling
    requires o in T && T[o] > 0
  {
    T[o := T[o] - 1][o + Size(g, T[o] - 1) := T[o] - 1]
  }

  lemma SplitAligned(g: Geometry, T: Tiling, o: nat)
    requires Aligned(g, T) && Disjoint(g, T) && o in T && T[o] > 0
    ensures Aligned(g, SplitAt(g, T, o)) && o + Size(g, T[o] - 1) !in T && Size(g, T[o]) == 2 * Size(g, T[o] - 1)
  {
    hide Size, Total, Aligned;
    var i, h, T' := T[o], Size(g, T[o] - 1), SplitAt(g, T, o);
    StartAligned(g, T, o);
    SizeFacts(g, i - 1, i - 1);
    SizeFacts(g, i - 1, i);
    DividesThrough(o, Size(g, i), h);
    Unique(h, h, 1, 0);
    SumAligned(o, h, h);
    var e := EndOf(g, T, o);
    assert o + h in T ==> e <= o + h;
    forall x | x in T' ensures T'[x] < g.levels && x % Size(g, T'[x]) == 0 && EndOf(g, T', x) <= Total(g) {
      if x != o && x != o + h { StartAligned(g, T, x); }
    }
    AllAligned(g, T');
  }

  lemma AllAligned(g: Geometry, T: Tiling)
    requires forall x :: x in T ==> T[x] < g.levels && x % Size(g, T[x]) == 0 && EndOf(g, T, x) <= Total(g)
    ensures Aligned(g, T)
  {
  }

  lemma SplitCovers(g: Geometry, T: Tiling, o: nat)
    requires Full(g, T) && o in T && T[o] > 0 && Size(g, T[o]) == 2 * Size(g, T[o] - 1) && o + Size(g, T[o] - 1) !in T
    ensures Full(g, SplitAt(g, T, o))
  {
    hide Size, Total;
    var T', mid := SplitAt(g, T, o), o + Size(g, T[o] - 1);
    forall x: nat | x < Total(g) ensures Covered(g, T', x) {
      assert Covered(g, T, x);
      var s: nat :| InBlock(g, T, x, s);
      var s' := if s == o && mid <= x then mid else s;
      assert InBlock(g, T', x, s');
    }
  }

  lemma SplitTiles(g: Geometry, T: Tiling, o: nat)
    requires Tiles(g, T) && o in T && T[o] > 0
    ensures Tiles(g, SplitAt(g, T, o)) && o + Size(g, T[o] - 1) !in T && Size(g, T[o]) == 2 * Size(g, T[o] - 1)
  {
    hide Size, Total, Aligned, Disjoint, Full;
    SplitAligned(g, T, o);
    SplitCovers(g, T, o);
    SplitDisjoint(g, T, o);
  }

  lemma SplitDisjoint(g: Geometry, T: Tiling, o: nat)
    requires Disjoint(g, T) && o in T && T[o] > 0
    ensures Disjoint(g, SplitAt(g, T, o))
  {
    hide Size;
    var T', mid := SplitAt(g, T, o), o + Size(g, T[o] - 1);
    SizeFacts(g, T[o] - 1, T[o] - 1);
    forall a, b | a in T' && b in T' && a < b ensures EndOf(g, T', a) <= b {
      assert a in T && b in T && a < b ==> EndOf(g, T, a) <= b;
      assert a in T && o < a ==> EndOf(g, T, o) <= a;
      assert b in T && o < b ==> EndOf(g, T, o) <= b;
      assert a in T && a < o ==> EndOf(g, T, a) <= o;
    }
  }

  function Lower(a: nat, b: nat): nat {
    if a < b then a else b
  }

  lemma LowerIsOne(a: nat, b: nat)
    ensures Lower(a, b) == a || Lower(a, b) == b
  {
  }

  function MergeAt(T: Tiling, o: nat, b: nat, i: nat): Tiling {
    (map q | q in T && q != o && q != b :: T[q])[Lower(o, b) := i + 1]
  }

  // o and its other half are blocks of the same level below the top.
  predicate Pair(g: Geometry, T: Tiling, o: nat, b: nat, i: nat) {
    o in T && b in T && T[o] == T[b] == i < g.levels - 1 && b == OtherHalf(o, Size(g, i))
  }

  lemma PairFacts(g: Geometry, T: Tiling, o: nat, b: nat, i: nat)
    requires Aligned(g, T) && Pair(g, T, o, b, i)
    ensures o != b && Lower(o, b) + Size(g, i) in T && Size(g, i + 1) == 2 * Size(g, i) && Lower(o, b) % Size(g, i + 1) == 0
    ensures Lower(o, b) + Size(g, i + 1) <= Total(g)
    ensures {o, b} == {Lower(o, b), Lower(o, b) + Size(g, i)}
  {
    hide Size, Total;
    HalfFacts(o, Size(g, i));
    SizeFacts(g, i, i);
    StartAligned(g, T, o);
    StartAligned(g, T, b);
    hide Aligned;
  }

  lemma MergeCovers(g: Geometry, T: Tiling, o: nat, b: nat, i: nat)
    requires Aligned(g, T) && Full(g, T) && Pair(g, T, o, b, i)
    ensures Full(g, MergeAt(T, o, b, i))
  {
    hide Size, Total, Aligned, Pair;
    PairFacts(g, T, o, b, i);
    PairLevels(g, T, o, b, i);
    var T', P := MergeAt(T, o, b, i), Lower(o, b);
    forall x: nat | x < Total(g) ensures Covered(g, T', x) {
      assert Covered(g, T, x);
      var s: nat :| InBlock(g, T, x, s);
      var s' := if s == o || s == b then P else s;
      assert InBlock(g, T', x, s');
    }
  }

  lemma PairLevels(g: Geometry, T: Tiling, o: nat, b: nat, i: nat)
    requires Pair(g, T, o, b, i)
    ensures o in T && b in T && T[o] == i && T[b] == i && i < g.levels - 1
  {
  }

  lemma MergeDisjoint(g: Geometry, T: Tiling, o: nat, b: nat, i: nat)
    requires Aligned(g, T) && Disjoint(g, T) && Pair(g, T, o, b, i)
    ensures Disjoint(g, MergeAt(T, o, b, i))
  {
    hide Size, Total, Aligned, Pair;
    PairFacts(g, T, o, b, i);
    PairLevels(g, T, o, b, i);
    var T', P := MergeAt(T, o, b, i), Lower(o, b);
    var Q := P + Size(g, i);
    assert T[Q] == i && T[P] == i;
    forall a, c | a in T' && c in T' && a < c ensures EndOf(g, T', a) <= c {
      assert T[a] == T[a] && T[c] == T[c];
    }
  }

  lemma MergeTiles(g: Geometry, T: Tiling, o: nat, b: nat, i: nat)
    requires Tiles(g, T) && Pair(g, T, o, b, i)
    ensures Tiles(g, MergeAt(T, o, b, i))
  {
    hide Size, Total, Pair, Disjoint, Full;
    PairFacts(g, T, o, b, i);
    PairLevels(g, T, o, b, i);
    MergeCovers(g, T, o, b, i);
    MergeDisjoint(g, T, o, b, i);
  }

  // ---------------------------------------------------------------------------------------
  // Headers and free lists
  // ---------------------------------------------------------------------------------------

  datatype Ptr = Null | To(off: nat)
  datatype Header = Header(free: bool, size: nat, next: Ptr)

  type Memory = map<nat, Header>

  function First(q: seq<nat>): Ptr {
    if q == [] then Null else To(q[0])
  }

  // Following next from head spells q.
  predicate Spells(hdr: Memory, head: Ptr, q: seq<nat>)
    decreases |q|
  {
    head == First(q) && (q != [] ==> q[0] in hdr && Spells(hdr, hdr[q[0]].next, q[1..]))
  }

  predicate NoRepeats(q: seq<nat>) {
    forall i, j :: 0 <= i < j < |q| ==> q[i] != q[j]
  }

  lemma {:induction false} SpellsFrame(hdr: Memory, hdr': Memory, head: Ptr, q: seq<nat>)
    requires Spells(hdr, head, q) && forall o :: o in q && o in hdr ==> o in hdr' && hdr'[o].next == hdr[o].next
    ensures Spells(hdr', head, q)
    decreases |q|
  {
    if q != [] {
      assert forall o :: o in q[1..] ==> o in q;
      SpellsFrame(hdr, hdr', hdr[q[0]].next, q[1..]);
    }
  }

  lemma {:induction false} SpelledIsLive(hdr: Memory, head: Ptr, q: seq<nat>)
    requires Spells(hdr, head, q)
    ensures forall o :: o in q ==> o in hdr
    decreases |q|
  {
    if q != [] { SpelledIsLive(hdr, hdr[q[0]].next, q[1..]); }
  }

  function Without(q: seq<nat>, b: nat): seq<nat> {
    if q == [] then [] else if q[0] == b then q[1..] else [q[0]] + Without(q[1..], b)
  }

  lemma {:induction false} WithoutFacts(q: seq<nat>, b: nat)
    requires NoRepeats(q)
    ensures NoRepeats(Without(q, b)) && forall o :: o in Without(q, b) <==> o in q && o != b
  {
    if q != [] && q[0] != b {
      WithoutFacts(q[1..], b);
      assert q == [q[0]] + q[1..] && q[0] !in q[1..];
    } else if q != [] {
      assert q == [b] + q[1..];
    }
  }

  ghost predicate Headers(g: Geometry, hdr: Memory, T: Tiling) {
    forall o {:trigger T[o]} {:trigger hdr[o]} :: o in T ==> o in hdr && hdr[o].size == Size(g, T[o])
  }

  // List i holds exactly the free blocks of level i.
  ghost predicate ListOf(hdr: Memory, T: Tiling, i: nat, q: seq<nat>) {
    NoRepeats(q) && forall o :: o in q <==> o in T && T[o] == i && o in hdr && hdr[o].free
  }

  ghost predicate Lists(g: Geometry, hdr: Memory, heads: seq<Ptr>, T: Tiling, L: seq<seq<nat>>) {
    && |heads| == |L| == g.levels
    && forall i {:trigger L[i]} :: 0 <= i < g.levels ==> Spells(hdr, heads[i], L[i]) && ListOf(hdr, T, i, L[i])
  }

  ghost predicate Picture(g: Geometry, hdr: Memory, heads: seq<Ptr>, T: Tiling, L: seq<seq<nat>>) {
    Tiles(g, T) && Headers(g, hdr, T) && Lists(g, hdr, heads, T, L)
  }

  predicate IsFree(hdr: Memory, T: Tiling, o: nat) {
    o in T && o in hdr && hdr[o].free
  }

  // No two free blocks of one level are buddies, below the top level.
  ghost predicate NoFreePairs(g: Geometry, hdr: Memory, T: Tiling) {
    forall o, b, i :: Pair(g, T, o, b, i) ==> !(IsFree(hdr, T, o) && IsFree(hdr, T, b))
  }

  // --- list operations -------------------------------------------------------------------------------

  lemma {:induction false} SpellsAt(hdr: Memory, head: Ptr, q: seq<nat>, k: nat)
    requires Spells(hdr, head, q) && k < |q|
    ensures q[k] in hdr && hdr[q[k]].next == First(q[k + 1..])
    decreases |q|
  {
    if k > 0 {
      SpellsAt(hdr, hdr[q[0]].next, q[1..], k - 1);
      assert q[1..][k..] == q[k + 1..];
    }
  }

  function Unlinked(hdr: Memory, c: nat, b: nat): Memory
    requires c in hdr && b in hdr
  {
    hdr[c := hdr[c].(next := hdr[b].next)]
  }

  // Bypassing the entry behind position k takes it off the list.
  lemma {:induction false} SpellsCut(hdr: Memory, head: Ptr, q: seq<nat>, k: nat)
    requires Spells(hdr, head, q) && NoRepeats(q) && k + 1 < |q|
    ensures q[k] in hdr && q[k + 1] in hdr
    ensures Spells(Unlinked(hdr, q[k], q[k + 1]), head, q[..k + 1] + q[k + 2..])
    ensures Without(q, q[k + 1]) == q[..k + 1] + q[k + 2..]
    decreases |q|
  {
    SpellsAt(hdr, head, q, k);
    SpellsAt(hdr, head, q, k + 1);
    var hdr', tail := Unlinked(hdr, q[k], q[k + 1]), q[1..];
    if k == 0 {
      SpellsFrame(hdr, hdr', hdr[q[1]].next, q[2..]);
      assert q[..1] + q[2..] == [q[0]] + q[2..] && ([q[0]] + q[2..])[1..] == q[2..];
      assert tail[0] == q[1] && tail[1..] == q[2..];
    } else {
      SpellsCut(hdr, hdr[q[0]].next, tail, k - 1);
      var cut := q[..k + 1] + q[k + 2..];
      assert cut[1..] == tail[..k] + tail[k + 1..] && cut[0] == q[0];
      assert cut == [q[0]] + cut[1..];
    }
  }

  // Only next fields of entries of q differ.
  predicate OnlyNextOf(hdr: Memory, hdr': Memory, q: seq<nat>) {
    && hdr'.Keys == hdr.Keys
    && forall o {:trigger hdr'[o]} :: o in hdr ==>
         hdr'[o].free == hdr[o].free && hdr'[o].size == hdr[o].size && (o !in q ==> hdr'[o].next == hdr[o].next)
  }

  lemma {:induction false} WithoutAbsent(q: seq<nat>, b: nat)
    requires b !in q
    ensures Without(q, b) == q
  {
    if q != [] {
      WithoutAbsent(q[1..], b);
      assert q == [q[0]] + q[1..];
    }
  }

  // The walk of remove stands at position k of the list w; the entry is off already or still ahead.
  ghost predicate Removing(hdr0: Memory, hdr: Memory, head: Ptr, q: seq<nat>, w: seq<nat>, k: nat, b: nat, curr: Ptr) {
    && Spells(hdr, head, w) && NoRepeats(w) && k <= |w| && (w == q || w == Without(q, b)) && NoRepeats(q)
    && curr == First(w[k..]) && OnlyNextOf(hdr0, hdr, q) && (forall i :: 0 <= i <= k && i < |w| ==> w[i] != b)
    && (forall o :: o in w ==> o in q)
  }

  lemma RemovingStart(hdr: Memory, head: Ptr, q: seq<nat>, b: nat)
    requires Spells(hdr, head, q) && NoRepeats(q) && head != To(b)
    ensures Removing(hdr, hdr, head, q, q, 0, b, head)
  {
  }

  lemma RemovingAt(hdr0: Memory, hdr: Memory, head: Ptr, q: seq<nat>, w: seq<nat>, k: nat, b: nat, curr: Ptr)
    requires Removing(hdr0, hdr, head, q, w, k, b, curr) && curr.To?
    ensures k < |w| && curr.off == w[k] && curr.off in hdr && hdr[curr.off].next == First(w[k + 1..])
    ensures hdr[curr.off].next == To(b) ==> b in hdr && k + 1 < |w| && w[k + 1] == b
  {
    assert w[k..] != [] && w[k..][0] == w[k];
    SpellsAt(hdr, head, w, k);
    if hdr[curr.off].next == To(b) {
      assert w[k + 1..][0] == b;
      SpellsAt(hdr, head, w, k + 1);
    }
  }

  lemma RemovingCut(hdr0: Memory, hdr: Memory, head: Ptr, q: seq<nat>, w: seq<nat>, k: nat, b: nat, curr: Ptr)
    requires Removing(hdr0, hdr, head, q, w, k, b, curr) && k + 1 < |w| && w[k + 1] == b && w[k] in hdr && b in hdr
    ensures var hdr', w' := Unlinked(hdr, w[k], b), w[..k + 1] + w[k + 2..];
      Removing(hdr0, hdr', head, q, w', k + 1, b, hdr'[w[k]].next) && |w'| == |w| - 1
  {
    SpellsCut(hdr, head, w, k);
    SpellsAt(hdr, head, w, k + 1);
    var hdr', w' := Unlinked(hdr, w[k], b), w[..k + 1] + w[k + 2..];
    WithoutFacts(q, b);
    assert w == q;
    assert w'[k + 1..] == w[k + 2..];
    assert b !in w';
  }

  lemma RemovingPass(hdr0: Memory, hdr: Memory, head: Ptr, q: seq<nat>, w: seq<nat>, k: nat, b: nat, curr: Ptr)
    requires Removing(hdr0, hdr, head, q, w, k, b, curr) && k < |w| && w[k] in hdr && hdr[w[k]].next == First(w[k + 1..])
    requires hdr[w[k]].next != To(b)
    ensures Removing(hdr0, hdr, head, q, w, k + 1, b, hdr[w[k]].next)
  {
  }

  lemma RemovingEnd(hdr0: Memory, hdr: Memory, head: Ptr, q: seq<nat>, w: seq<nat>, k: nat, b: nat, curr: Ptr)
    requires Removing(hdr0, hdr, head, q, w, k, b, curr) && curr == Null
    ensures Spells(hdr, head, Without(q, b)) && OnlyNextOf(hdr0, hdr, q)
  {
    assert w[k..] == [];
    assert k == |w|;
    if w == q { WithoutAbsent(q, b); }
  }

  lemma RemoveHead(hdr: Memory, head: Ptr, q: seq<nat>, b: nat)
    requires Spells(hdr, head, q) && head == To(b)
    ensures b in hdr && Spells(hdr, hdr[b].next, Without(q, b)) && Without(q, b) == q[1..] && OnlyNextOf(hdr, hdr, q)
  {
  }

  // ---------------------------------------------------------------------------------------
  // Steps that keep the picture
  // ---------------------------------------------------------------------------------------

  lemma ListFacts(g: Geometry, hdr: Memory, heads: seq<Ptr>, T: Tiling, L: seq<seq<nat>>, i: nat)
    requires Lists(g, hdr, heads, T, L) && i < g.levels
    ensures |heads| == |L| == g.levels && Spells(hdr, heads[i], L[i]) && ListOf(hdr, T, i, L[i])
  {
  }

  // A list whose entries kept their level, flag and link.
  lemma ListStays(hdr: Memory, T: Tiling, head: Ptr, q: seq<nat>, hdr': Memory, T': Tiling, i: nat)
    requires Spells(hdr, head, q) && ListOf(hdr, T, i, q)
    requires forall o :: o in q ==> o in hdr' && o in hdr && hdr'[o].next == hdr[o].next
    requires forall o :: IsFree(hdr, T, o) && T[o] == i <==> IsFree(hdr', T', o) && T'[o] == i
    ensures Spells(hdr', head, q) && ListOf(hdr', T', i, q)
  {
    hide Spells;
    SpellsFrame(hdr, hdr', head, q);
    forall o ensures o in q <==> o in T' && T'[o] == i && o in hdr' && hdr'[o].free {
      assert IsFree(hdr, T, o) && T[o] == i <==> IsFree(hdr', T', o) && T'[o] == i;
    }
  }

  function SplitHeaders(hdr: Memory, o: nat, h: nat): Memory
    requires o in hdr
  {
    hdr[o + h := Header(true, h, Null)][o := Header(hdr[o].free, h, To(o + h))]
  }

  // alloc's split of the first block of list i; the list below is empty, so overwriting its head
  // drops nothing.
  lemma SplitKeeps(g: Geometry, hdr: Memory, heads: seq<Ptr>, T: Tiling, L: seq<seq<nat>>, i: nat, o: nat)
    requires Picture(g, hdr, heads, T, L) && 0 < i < g.levels && L[i] != [] && o == L[i][0] && L[i - 1] == []
    ensures o in hdr && o in T && T[o] == i && hdr[o].free && hdr[o].next == First(L[i][1..])
    ensures var h := Size(g, i - 1);
      Picture(g, SplitHeaders(hdr, o, h), heads[i - 1 := To(o)][i := hdr[o].next], SplitAt(g, T, o), L[i - 1 := [o, o + h]][i := L[i][1..]])
  {
    hide Size, Total, Tiles;
    var h := Size(g, i - 1);
    ListFacts(g, hdr, heads, T, L, i);
    assert o in L[i];
    SplitTiles(g, T, o);
    var hdr', T', mid := SplitHeaders(hdr, o, h), SplitAt(g, T, o), o + h;
    var heads', L' := heads[i - 1 := To(o)][i := hdr[o].next], L[i - 1 := [o, mid]][i := L[i][1..]];
    assert Headers(g, hdr', T') by { SplitHeadersOk(g, hdr, T, o, i); }
    forall j {:trigger L'[j]} | 0 <= j < g.levels ensures Spells(hdr', heads'[j], L'[j]) && ListOf(hdr', T', j, L'[j]) {
      SplitList(g, hdr, heads, T, L, i, o, j);
    }
  }

  lemma SplitHeadersOk(g: Geometry, hdr: Memory, T: Tiling, o: nat, i: nat)
    requires Headers(g, hdr, T) && o in T && T[o] == i > 0
    ensures Headers(g, SplitHeaders(hdr, o, Size(g, i - 1)), SplitAt(g, T, o))
  {
  }

  lemma SplitList(g: Geometry, hdr: Memory, heads: seq<Ptr>, T: Tiling, L: seq<seq<nat>>, i: nat, o: nat, j: nat)
    requires Headers(g, hdr, T) && Lists(g, hdr, heads, T, L) && 0 < i < g.levels && j < g.levels
    requires L[i] != [] && o == L[i][0] && L[i - 1] == [] && o in T && T[o] == i && o in hdr
    requires o + Size(g, i - 1) !in T
    ensures var h := Size(g, i - 1);
      var hdr', T' := SplitHeaders(hdr, o, h), SplitAt(g, T, o);
      var heads', L' := heads[i - 1 := To(o)][i := hdr[o].next], L[i - 1 := [o, o + h]][i := L[i][1..]];
      Spells(hdr', heads'[j], L'[j]) && ListOf(hdr', T', j, L'[j])
  {
    hide Size, Spells, Headers;
    var h := Size(g, i - 1);
    var hdr', T', mid := SplitHeaders(hdr, o, h), SplitAt(g, T, o), o + h;
    ListFacts(g, hdr, heads, T, L, j);
    ListFacts(g, hdr, heads, T, L, i);
    ListFacts(g, hdr, heads, T, L, i - 1);
    SpellsTail(hdr, heads[i], L[i]);
    if j == i {
      SplitUpper(hdr, T, hdr[o].next, L[i], hdr', T', i, mid);
    } else if j == i - 1 {
      SplitLower(hdr, T, hdr', T', i, o, mid);
    } else {
      ListStays(hdr, T, heads[j], L[j], hdr', T', j);
    }
  }

  lemma SpellsTail(hdr: Memory, head: Ptr, q: seq<nat>)
    requires Spells(hdr, head, q) && q != []
    ensures q[0] in hdr && Spells(hdr, hdr[q[0]].next, q[1..])
  {
  }

  lemma SplitUpper(hdr: Memory, T: Tiling, rest: Ptr, q: seq<nat>, hdr': Memory, T': Tiling, i: nat, mid: nat)
    requires q != [] && q[0] in hdr && ListOf(hdr, T, i, q) && Spells(hdr, rest, q[1..]) && mid !in T && i > 0
    requires mid in hdr' && q[0] in hdr'
    requires T' == T[q[0] := i - 1][mid := i - 1] && hdr' == hdr[mid := Header(true, hdr'[mid].size, Null)][q[0] := hdr'[q[0]]]
    ensures Spells(hdr', rest, q[1..]) && ListOf(hdr', T', i, q[1..])
  {
    hide Spells;
    assert q == [q[0]] + q[1..] && q[0] !in q[1..];
    assert forall x :: x in q[1..] ==> x in q && x in T;
    SpellsFrame(hdr, hdr', rest, q[1..]);
  }

  lemma SplitLower(hdr: Memory, T: Tiling, hdr': Memory, T': Tiling, i: nat, o: nat, mid: nat)
    requires i > 0 && o in T && T[o] == i && o in hdr && hdr[o].free && mid !in T && o != mid && ListOf(hdr, T, i - 1, [])
    requires T' == T[o := i - 1][mid := i - 1] && o in hdr' && mid in hdr'
    requires hdr' == hdr[mid := Header(true, hdr'[mid].size, Null)][o := Header(true, hdr'[o].size, To(mid))]
    ensures Spells(hdr', To(o), [o, mid]) && ListOf(hdr', T', i - 1, [o, mid])
  {
  }

  function Busy(hdr: Memory, o: nat): Memory {
    if o in hdr then hdr[o := hdr[o].(free := false)] else hdr
  }

  function Freed(hdr: Memory, o: nat): Memory {
    if o in hdr then hdr[o := hdr[o].(free := true)] else hdr
  }

  // The picture but for block o, which is marked free and on no list.
  ghost predicate Loose(g: Geometry, hdr: Memory, heads: seq<Ptr>, T: Tiling, L: seq<seq<nat>>, o: nat) {
    Picture(g, Busy(hdr, o), heads, T, L) && o in T && o in hdr && hdr[o].free
  }

  // Taking a free block off its list, with the links of other lists untouched.
  lemma UnlistKeeps(g: Geometry, hdr: Memory, heads: seq<Ptr>, T: Tiling, L: seq<seq<nat>>, o: nat, i: nat, hdr': Memory, head: Ptr)
    requires Picture(g, hdr, heads, T, L) && IsFree(hdr, T, o) && T[o] == i < g.levels
    requires OnlyNextOf(hdr, hdr', L[i]) && Spells(hdr', head, Without(L[i], o))
    ensures Picture(g, Busy(hdr', o), heads[i := head], T, L[i := Without(L[i], o)])
  {
    hide Size, Total, Tiles, Spells, Without;
    var hdr'', heads', L' := Busy(hdr', o), heads[i := head], L[i := Without(L[i], o)];
    forall j {:trigger L'[j]} | 0 <= j < g.levels ensures Spells(hdr'', heads'[j], L'[j]) && ListOf(hdr'', T, j, L'[j]) {
      ListFacts(g, hdr, heads, T, L, j);
      ListFacts(g, hdr, heads, T, L, i);
      if j == i {
        WithoutFacts(L[i], o);
        SpellsFrame(hdr', hdr'', head, Without(L[i], o));
      } else {
        assert forall x :: x in L[j] ==> x !in L[i];
        ListStays(hdr, T, heads[j], L[j], hdr'', T, j);
      }
    }
  }

  // insert of a loose block
  lemma EnlistKeeps(g: Geometry, hdr: Memory, heads: seq<Ptr>, T: Tiling, L: seq<seq<nat>>, o: nat, i: nat)
    requires Loose(g, hdr, heads, T, L, o) && T[o] == i < g.levels && |heads| == |L| == g.levels
    ensures Picture(g, hdr[o := hdr[o].(next := heads[i])], heads[i := To(o)], T, L[i := [o] + L[i]])
  {
    hide Size, Total, Tiles, Spells;
    var hdr0, hdr', heads', L' := Busy(hdr, o), hdr[o := hdr[o].(next := heads[i])], heads[i := To(o)], L[i := [o] + L[i]];
    forall j {:trigger L'[j]} | 0 <= j < g.levels ensures Spells(hdr', heads'[j], L'[j]) && ListOf(hdr', T, j, L'[j]) {
      ListFacts(g, hdr0, heads, T, L, j);
      if j == i { EnlistOwn(hdr, heads[i], T, L[i], o, i); } else { ListStays(hdr0, T, heads[j], L[j], hdr', T, j); }
    }
  }

  lemma EnlistOwn(hdr: Memory, head: Ptr, T: Tiling, q: seq<nat>, o: nat, i: nat)
    requires o in hdr && hdr[o].free && o in T && T[o] == i && Spells(Busy(hdr, o), head, q) && ListOf(Busy(hdr, o), T, i, q)
    ensures var hdr' := hdr[o := hdr[o].(next := head)]; Spells(hdr', To(o), [o] + q) && ListOf(hdr', T, i, [o] + q)
  {
    var hdr' := hdr[o := hdr[o].(next := head)];
    assert o !in q;
    SpellsFrame(Busy(hdr, o), hdr', head, q);
    assert ([o] + q)[1..] == q;
  }

  function Merged(hdr: Memory, P: nat): Memory {
    if P in hdr then hdr[P := hdr[P].(size := 2 * hdr[P].size)] else hdr
  }

  // Merging a loose block with its equally large buddy, both off the lists.
  lemma MergeKeeps(g: Geometry, hdr: Memory, heads: seq<Ptr>, T: Tiling, L: seq<seq<nat>>, o: nat, b: nat, i: nat)
    requires Picture(g, Busy(Busy(hdr, o), b), heads, T, L) && Pair(g, T, o, b, i)
    requires o in hdr && b in hdr && hdr[o].free && hdr[b].free
    ensures Loose(g, Merged(hdr, Lower(o, b)), heads, MergeAt(T, o, b, i), L, Lower(o, b))
  {
    hide Size, Total, Tiles, Spells, Pair;
    PairLevels(g, T, o, b, i);
    assert Aligned(g, T) by { TilesAligned(g, T); }
    PairFacts(g, T, o, b, i);
    MergeTiles(g, T, o, b, i);
    var P, hdr0 := Lower(o, b), Busy(Busy(hdr, o), b);
    var hdr', T' := Busy(Merged(hdr, P), P), MergeAt(T, o, b, i);
    MergeHeaders(g, hdr, T, o, b, i);
    forall j {:trigger L[j]} | 0 <= j < g.levels ensures Spells(hdr', heads[j], L[j]) && ListOf(hdr', T', j, L[j]) {
      ListFacts(g, hdr0, heads, T, L, j);
      ListStays(hdr0, T, heads[j], L[j], hdr', T', j);
    }
  }

  lemma TilesAligned(g: Geometry, T: Tiling)
    requires Tiles(g, T)
    ensures Aligned(g, T)
  {
  }

  lemma MergeHeaders(g: Geometry, hdr: Memory, T: Tiling, o: nat, b: nat, i: nat)
    requires Headers(g, Busy(Busy(hdr, o), b), T) && o in T && b in T && T[o] == i && T[b] == i && Size(g, i + 1) == 2 * Size(g, i)
    ensures Headers(g, Busy(Merged(hdr, Lower(o, b)), Lower(o, b)), MergeAt(T, o, b, i))
  {
  }

  // --- free pairs and allocated blocks ---------------------------------------------------------------

  ghost predicate NoFreePairsBut(g: Geometry, hdr: Memory, T: Tiling, o: nat) {
    forall a, b, i :: Pair(g, T, a, b, i) && a != o && b != o ==> !(IsFree(hdr, T, a) && IsFree(hdr, T, b))
  }

  // The blocks handed out, with their levels.
  function Allocated(hdr: Memory, T: Tiling): Tiling {
    map q | q in T && q in hdr && !hdr[q].free :: T[q]
  }

  lemma SplitPairs(g: Geometry, hdr: Memory, T: Tiling, o: nat)
    requires Aligned(g, T) && o in T && T[o] > 0 && o in hdr && hdr[o].free && Headers(g, hdr, T)
    requires NoFreePairsBut(g, hdr, T, o) && o + Size(g, T[o] - 1) !in T
    ensures NoFreePairsBut(g, SplitHeaders(hdr, o, Size(g, T[o] - 1)), SplitAt(g, T, o), o)
    ensures Allocated(SplitHeaders(hdr, o, Size(g, T[o] - 1)), SplitAt(g, T, o)) == Allocated(hdr, T)
  {
    hide Size, OtherHalf, Headers;
    var i, h := T[o], Size(g, T[o] - 1);
    var hdr', T', mid := SplitHeaders(hdr, o, h), SplitAt(g, T, o), o + h;
    MidIsOther(g, T, o);
    forall a, b, j | Pair(g, T', a, b, j) && a != o && b != o ensures !(IsFree(hdr', T', a) && IsFree(hdr', T', b)) {
      OtherIsMutual(g, T', a, b, j);
      assert a != mid && b != mid;
      assert Pair(g, T, a, b, j);
    }
    assert Allocated(hdr', T') == Allocated(hdr, T);
  }

  lemma MidIsOther(g: Geometry, T: Tiling, o: nat)
    requires Aligned(g, T) && o in T && T[o] > 0
    ensures OtherHalf(o + Size(g, T[o] - 1), Size(g, T[o] - 1)) == o
  {
    hide Size;
    var h := Size(g, T[o] - 1);
    StartAligned(g, T, o);
    SizeFacts(g, T[o] - 1, T[o] - 1);
    var q := o / (2 * h);
    assert o == q * (2 * h);
    HalfTimes(q, h);
    OtherIsFlip(2 * q, h);
    OtherIsFlip(2 * q + 1, h);
    Neighbours(2 * q, h);
  }

  lemma OtherIsMutual(g: Geometry, T: Tiling, a: nat, b: nat, j: nat)
    requires Pair(g, T, a, b, j)
    ensures b == OtherHalf(a, Size(g, j)) && T[a] == j == T[b] && (a % Size(g, j) == 0 ==> a == OtherHalf(b, Size(g, j)))
  {
    hide Size, OtherHalf;
    if a % Size(g, j) == 0 { HalfFacts(a, Size(g, j)); }
  }

  // --- alloc ---------------------------------------------------------------------------------------------

  // sizeof(BlockHeader)
  const HEADER: nat := 16

  // The level that alloc starts from, and then splits down to: o heads list i, every level below that
  // could serve the request is empty.
  ghost predicate Searching(g: Geometry, hdr: Memory, heads: seq<Ptr>, T: Tiling, L: seq<seq<nat>>, i: nat, o: nat, need: nat, A: Tiling) {
    && Picture(g, hdr, heads, T, L) && |L| == g.levels && i < g.levels && L[i] != [] && L[i][0] == o && need <= Size(g, i)
    && (forall j {:trigger L[j]} :: 0 <= j < i ==> L[j] == [] || need > Size(g, j))
    && NoFreePairsBut(g, hdr, T, o) && Allocated(hdr, T) == A
  }

  lemma HeadFacts(g: Geometry, hdr: Memory, heads: seq<Ptr>, T: Tiling, L: seq<seq<nat>>, i: nat)
    requires Picture(g, hdr, heads, T, L) && i < g.levels
    ensures |heads| == |L| == g.levels && heads[i] == First(L[i])
    ensures L[i] != [] ==> var o := L[i][0]; o in T && T[o] == i && o in hdr && hdr[o].free && hdr[o].size == Size(g, i)
  {
  }

  lemma SearchSplits(g: Geometry, hdr: Memory, heads: seq<Ptr>, T: Tiling, L: seq<seq<nat>>, i: nat, o: nat, need: nat, A: Tiling)
    requires Searching(g, hdr, heads, T, L, i, o, need, A) && Size(g, i) / 2 > need && Size(g, i) / 2 >= Size(g, 0)
    ensures i > 0 && o in hdr && o in T && T[o] == i && |heads| == |L| == g.levels && Size(g, i) / 2 == Size(g, i - 1) && L[i] != []
    ensures var h := Size(g, i - 1);
      Searching(g, SplitHeaders(hdr, o, h), heads[i - 1 := To(o)][i := hdr[o].next], SplitAt(g, T, o),
                L[i - 1 := [o, o + h]][i := L[i][1..]], i - 1, o, need, A)
  {
    hide Size, Total, Tiles, Lists, Headers, NoFreePairsBut, Allocated;
    HeadFacts(g, hdr, heads, T, L, i);
    if i > 0 { SizeFacts(g, i - 1, i - 1); }
    assert i > 0;
    SplitKeeps(g, hdr, heads, T, L, i, o);
    SplitTiles(g, T, o);
    TilesAligned(g, T);
    SplitPairs(g, hdr, T, o);
  }

  // Taking the head of list i and marking it used.
  lemma SearchTakes(g: Geometry, hdr: Memory, heads: seq<Ptr>, T: Tiling, L: seq<seq<nat>>, i: nat, o: nat, need: nat, A: Tiling,
                    hdr': Memory, head: Ptr)
    requires Searching(g, hdr, heads, T, L, i, o, need, A) && |heads| == g.levels
    requires OnlyNextOf(hdr, hdr', L[i]) && Spells(hdr', head, Without(L[i], o))
    ensures Picture(g, Busy(hdr', o), heads[i := head], T, L[i := Without(L[i], o)]) && NoFreePairs(g, Busy(hdr', o), T)
    ensures o in T && o in hdr' && T[o] == i && o !in A && Allocated(Busy(hdr', o), T) == A[o := i]
  {
    hide Size, Total, Tiles, Lists, Headers, Spells, Without, Pair;
    HeadFacts(g, hdr, heads, T, L, i);
    UnlistKeeps(g, hdr, heads, T, L, o, i, hdr', head);
    assert Allocated(Busy(hdr', o), T) == A[o := i];
  }

  // --- free -----------------------------------------------------------------------------------------------

  // Every free buddy that the merge loop meets from block o of level i upwards has the block's size.
  predicate MeetsEqual(g: Geometry, hdr: Memory, T: Tiling, o: nat, i: nat)
    decreases g.levels - i
  {
    i < g.levels - 1 ==>
      var b := OtherHalf(o, Size(g, i));
      IsFree(hdr, T, b) ==> T[b] == i && MeetsEqual(g, hdr, T, Lower(o, b), i + 1)
  }

  predicate AgreeAt(hdr: Memory, T: Tiling, hdr': Memory, T': Tiling, x: nat) {
    (x in T <==> x in T') && (x in T ==> T[x] == T'[x]) && (IsFree(hdr, T, x) <==> IsFree(hdr', T', x))
  }

  // The loop looks only at blocks outside the one it is merging.
  lemma {:induction false} MeetsFrame(g: Geometry, hdr: Memory, T: Tiling, hdr': Memory, T': Tiling, o: nat, i: nat)
    requires o % Size(g, i) == 0
    requires forall x: nat :: x < o || x >= o + Size(g, i) ==> AgreeAt(hdr, T, hdr', T', x)
    ensures MeetsEqual(g, hdr, T, o, i) <==> MeetsEqual(g, hdr', T', o, i)
    decreases g.levels - i
  {
    hide Size, OtherHalf, AgreeAt;
    if i < g.levels - 1 {
      var b := OtherHalf(o, Size(g, i));
      HalfFacts(o, Size(g, i));
      SizeFacts(g, i, i);
      assert AgreeAt(hdr, T, hdr', T', b);
      MeetsFree(hdr, T, hdr', T', b);
      if IsFree(hdr', T', b) { MeetsFrame(g, hdr, T, hdr', T', Lower(o, b), i + 1); }
    }
  }

  lemma MeetsFree(hdr: Memory, T: Tiling, hdr': Memory, T': Tiling, b: nat)
    requires AgreeAt(hdr, T, hdr', T', b)
    ensures IsFree(hdr, T, b) <==> IsFree(hdr', T', b)
    ensures IsFree(hdr, T, b) ==> T[b] == T'[b]
  {
  }

  // The merge loop of free: b is the block being merged, on list i or not yet on any.
  ghost predicate Merging(g: Geometry, hdr: Memory, heads: seq<Ptr>, T: Tiling, L: seq<seq<nat>>, b: nat, i: nat, listed: bool, A: Tiling) {
    && (if listed then Picture(g, hdr, heads, T, L) else Loose(g, hdr, heads, T, L, b))
    && IsFree(hdr, T, b) && T[b] == i < g.levels && |heads| == |L| == g.levels
    && NoFreePairsBut(g, hdr, T, b) && Allocated(hdr, T) == A
  }

  lemma BusyNext(hdr: Memory, hdr': Memory, q: seq<nat>, o: nat)
    requires OnlyNextOf(hdr, hdr', q)
    ensures OnlyNextOf(Busy(hdr, o), Busy(hdr', o), q) && (o in hdr <==> o in hdr')
    ensures o in hdr ==> hdr'[o].free == hdr[o].free && hdr'[o].size == hdr[o].size
  {
  }

  lemma SpellsBusy(hdr: Memory, head: Ptr, q: seq<nat>, o: nat)
    ensures Spells(hdr, head, q) <==> Spells(Busy(hdr, o), head, q)
  {
    if Spells(hdr, head, q) { SpellsFrame(hdr, Busy(hdr, o), head, q); }
    if Spells(Busy(hdr, o), head, q) { SpellsFrame(Busy(hdr, o), hdr, head, q); }
  }

  // remove(b): now b is on no list.
  lemma RoundUnlists(g: Geometry, hdr: Memory, heads: seq<Ptr>, T: Tiling, L: seq<seq<nat>>, b: nat, i: nat, listed: bool,
                     hdr': Memory, head: Ptr)
    requires (if listed then Picture(g, hdr, heads, T, L) else Loose(g, hdr, heads, T, L, b))
    requires IsFree(hdr, T, b) && T[b] == i < g.levels && |heads| == |L| == g.levels
    requires OnlyNextOf(hdr, hdr', L[i]) && Spells(hdr', head, Without(L[i], b))
    ensures Loose(g, hdr', heads[i := head], T, L[i := Without(L[i], b)], b)
  {
    hide Size, Tiles, Spells, Headers, Without;
    BusyNext(hdr, hdr', L[i], b);
    if listed {
      UnlistKeeps(g, hdr, heads, T, L, b, i, hdr', head);
    } else {
      SpellsBusy(hdr', head, Without(L[i], b), b);
      RespellKeeps(g, Busy(hdr, b), heads, T, L, b, i, Busy(hdr', b), head);
    }
  }

  // remove of a block that is on no list changes nothing.
  lemma RespellKeeps(g: Geometry, hdr: Memory, heads: seq<Ptr>, T: Tiling, L: seq<seq<nat>>, b: nat, i: nat, hdr': Memory, head: Ptr)
    requires Picture(g, hdr, heads, T, L) && b in T && T[b] == i < g.levels && b in hdr && !hdr[b].free
    requires OnlyNextOf(hdr, hdr', L[i]) && Spells(hdr', head, Without(L[i], b))
    ensures Picture(g, hdr', heads[i := head], T, L[i := Without(L[i], b)])
  {
    hide Size, Tiles, Spells;
    var heads', L' := heads[i := head], L[i := Without(L[i], b)];
    ListFacts(g, hdr, heads, T, L, i);
    WithoutAbsent(L[i], b);
    forall j {:trigger L'[j]} | 0 <= j < g.levels ensures Spells(hdr', heads'[j], L'[j]) && ListOf(hdr', T, j, L'[j]) {
      ListFacts(g, hdr, heads, T, L, j);
      if j != i {
        assert forall x :: x in L[j] ==> x !in L[i];
        ListStays(hdr, T, heads[j], L[j], hdr', T, j);
      }
    }
  }

  // remove of the buddy: now neither is on a list.
  lemma RoundUnlistsBuddy(g: Geometry, hdr: Memory, heads: seq<Ptr>, T: Tiling, L: seq<seq<nat>>, o: nat, b: nat, i: nat,
                          hdr': Memory, head: Ptr)
    requires Loose(g, hdr, heads, T, L, o) && Pair(g, T, o, b, i) && o != b && IsFree(hdr, T, b) && |heads| == |L| == g.levels
    requires OnlyNextOf(hdr, hdr', L[i]) && Spells(hdr', head, Without(L[i], b))
    ensures Picture(g, Busy(Busy(hdr', o), b), heads[i := head], T, L[i := Without(L[i], b)])
    ensures o in hdr' && b in hdr' && hdr'[o].free && hdr'[b].free
  {
    hide Size, Tiles, Spells, Headers, Without, Lists;
    BusyNext(hdr, hdr', L[i], o);
    SpellsBusy(hdr', head, Without(L[i], b), o);
    UnlistKeeps(g, Busy(hdr, o), heads, T, L, b, i, Busy(hdr', o), head);
  }

  // Same flags at the same places.
  predicate SameFlags(hdr: Memory, hdr': Memory) {
    hdr'.Keys == hdr.Keys && forall o {:trigger hdr'[o]} {:trigger hdr[o]} :: o in hdr ==> hdr'[o].free == hdr[o].free
  }

  lemma MergePairs(g: Geometry, hdr: Memory, T: Tiling, o: nat, b: nat, i: nat, hdr': Memory)
    requires NoFreePairsBut(g, hdr, T, o) && Pair(g, T, o, b, i) && SameFlags(hdr, hdr') && IsFree(hdr, T, o) && IsFree(hdr, T, b)
    ensures NoFreePairsBut(g, hdr', MergeAt(T, o, b, i), Lower(o, b))
    ensures Allocated(hdr', MergeAt(T, o, b, i)) == Allocated(hdr, T)
  {
    hide Size, OtherHalf;
    var T', P := MergeAt(T, o, b, i), Lower(o, b);
    forall a, c, j | Pair(g, T', a, c, j) && a != P && c != P ensures !(IsFree(hdr', T', a) && IsFree(hdr', T', c)) {
      assert Pair(g, T, a, c, j);
    }
    assert Allocated(hdr', T') == Allocated(hdr, T);
  }

  lemma MergeMeets(g: Geometry, hdr: Memory, T: Tiling, o: nat, b: nat, i: nat, hdr': Memory)
    requires Aligned(g, T) && Pair(g, T, o, b, i) && SameFlags(hdr, hdr') && IsFree(hdr, T, b)
    ensures MeetsEqual(g, hdr, T, o, i) <==> MeetsEqual(g, hdr', MergeAt(T, o, b, i), Lower(o, b), i + 1)
  {
    hide Size, OtherHalf;
    PairFacts(g, T, o, b, i);
    var T', P := MergeAt(T, o, b, i), Lower(o, b);
    assert o in {P, P + Size(g, i)} && b in {P, P + Size(g, i)};
    forall x: nat | x < P || x >= P + Size(g, i + 1) ensures AgreeAt(hdr, T, hdr', T', x) {
      assert x != o && x != b;
    }
    MeetsFrame(g, hdr, T, hdr', T', P, i + 1);
  }

  // One round of the merge loop, from the four list and header updates to the next round's state.
  lemma RoundMerges(g: Geometry, hdr0: Memory, T: Tiling, o: nat, b: nat, i: nat, A: Tiling,
                    hdr: Memory, heads: seq<Ptr>, L: seq<seq<nat>>)
    requires Tiles(g, T) && Pair(g, T, o, b, i) && IsFree(hdr0, T, o) && IsFree(hdr0, T, b)
    requires NoFreePairsBut(g, hdr0, T, o) && Allocated(hdr0, T) == A
    requires Picture(g, Busy(Busy(hdr, o), b), heads, T, L) && SameFlags(hdr0, hdr) && |heads| == |L| == g.levels
    ensures var P, T' := Lower(o, b), MergeAt(T, o, b, i);
      var hdr1 := Merged(hdr, P);
      && P in hdr1 && i + 1 < g.levels && P in T'
      && Merging(g, hdr1[P := hdr1[P].(next := heads[i + 1])], heads[i + 1 := To(P)], T', L[i + 1 := [P] + L[i + 1]], P, i + 1, true, A)
      && (MeetsEqual(g, hdr0, T, o, i) <==> MeetsEqual(g, hdr1[P := hdr1[P].(next := heads[i + 1])], T', P, i + 1))
  {
    hide Size, Tiles, Spells, Headers, Lists, Picture, NoFreePairsBut, MeetsEqual, Allocated;
    var P, T' := Lower(o, b), MergeAt(T, o, b, i);
    var hdr1 := Merged(hdr, P);
    TilesAligned(g, T);
    MergeKeeps(g, hdr, heads, T, L, o, b, i);
    EnlistKeeps(g, hdr1, heads, T', L, P, i + 1);
    var hdr2 := hdr1[P := hdr1[P].(next := heads[i + 1])];
    assert SameFlags(hdr0, hdr2);
    MergePairs(g, hdr0, T, o, b, i, hdr2);
    MergeMeets(g, hdr0, T, o, b, i, hdr2);
  }

  lemma NextFlags(hdr: Memory, hdr': Memory, q: seq<nat>)
    requires OnlyNextOf(hdr, hdr', q)
    ensures SameFlags(hdr, hdr')
  {
  }

  lemma FlagsTrans(hdr: Memory, hdr': Memory, hdr'': Memory)
    requires SameFlags(hdr, hdr') && SameFlags(hdr', hdr'')
    ensures SameFlags(hdr, hdr'')
  {
  }

  // ---------------------------------------------------------------------------------------
  // After the merge loop has met a smaller free buddy
  // ---------------------------------------------------------------------------------------

  // The memory after one round of the merge loop, in which the two calls of remove left hdr2 and h2 behind.
  function RoundMemory(hdr2: Memory, heads: seq<Ptr>, P: nat, i: nat): Memory
    requires i + 1 < |heads|
  {
    var hdr3 := Merged(hdr2, P);
    if P in hdr3 then hdr3[P := hdr3[P].(next := heads[i + 1])] else hdr3
  }

  function RoundHeads(heads: seq<Ptr>, h2: Ptr, P: nat, i: nat): seq<Ptr>
    requires i + 1 < |heads|
  {
    heads[i := h2][i + 1 := To(P)]
  }

  // Following next from head leads through q, whatever comes after it.
  predicate Leads(hdr: Memory, head: Ptr, q: seq<nat>) {
    && q != [] && head == To(q[0])
    && forall m {:trigger q[m]} :: 0 <= m < |q| - 1 ==> q[m] in hdr && hdr[q[m]].next == First(q[m + 1..])
  }

  lemma SpellsLeads(hdr: Memory, head: Ptr, q: seq<nat>, n: nat)
    requires Spells(hdr, head, q) && 0 < n <= |q|
    ensures Leads(hdr, head, q[..n])
  {
    forall m | 0 <= m < n - 1 ensures q[m] in hdr && hdr[q[m]].next == First(q[..n][m + 1..]) {
      SpellsAt(hdr, head, q, m);
    }
  }

  lemma {:induction false} LeadsSpells(hdr: Memory, head: Ptr, q: seq<nat>, r: seq<nat>, m: nat)
    requires Leads(hdr, head, q) && Spells(hdr, head, r) && m < |q|
    ensures m < |r| && r[m] == q[m]
  {
    if m > 0 {
      LeadsSpells(hdr, head, q, r, m - 1);
      SpellsAt(hdr, head, r, m - 1);
      assert q[m - 1 + 1..] != [] && q[m - 1 + 1..][0] == q[m];
      assert q[m - 1] in hdr && hdr[q[m - 1]].next == First(q[m - 1 + 1..]);
    }
  }

  // A shorter chain, with the links on the way to its end untouched.
  lemma LeadsCut(hdr: Memory, hdr': Memory, head: Ptr, q: seq<nat>, n: nat)
    requires Leads(hdr, head, q) && 0 < n <= |q|
    requires forall m :: 0 <= m < n - 1 ==> q[m] in hdr ==> q[m] in hdr' && hdr'[q[m]].next == hdr[q[m]].next
    ensures Leads(hdr', head, q[..n])
  {
    forall m | 0 <= m < n - 1 ensures q[m] in hdr' && hdr'[q[m]].next == First(q[..n][m + 1..]) {
      assert q[m] in hdr && hdr[q[m]].next == First(q[m + 1..]);
    }
  }

  // The lists from level `from` on are spelled and hold blocks of their level.
  ghost predicate Threads(g: Geometry, hdr: Memory, heads: seq<Ptr>, T: Tiling, L: seq<seq<nat>>, from: nat) {
    && |heads| == |L| == g.levels
    && forall l {:trigger L[l]} :: from <= l < g.levels ==> Spells(hdr, heads[l], L[l]) && NoRepeats(L[l]) && OfLevel(T, L[l], l)
  }

  predicate OfLevel(T: Tiling, q: seq<nat>, l: nat) {
    forall x :: x in q ==> x in T && T[x] == l
  }

  lemma ThreadsAt(g: Geometry, hdr: Memory, heads: seq<Ptr>, T: Tiling, L: seq<seq<nat>>, from: nat, l: nat)
    requires Threads(g, hdr, heads, T, L, from) && from <= l < g.levels
    ensures |heads| == |L| == g.levels && Spells(hdr, heads[l], L[l]) && NoRepeats(L[l]) && OfLevel(T, L[l], l)
  {
  }

  // How far a wrong merge has got: the size of its block is that of level k, it stands in for one of
  // level a, and a block inside it is still reached on the list of level j, through q.
  datatype Wreck = Wreck(k: nat, a: nat, j: nat, q: seq<nat>)

  // T and L are the tiling and the lists before the first wrong merge; P is being merged, on list i.
  ghost predicate Wrecked(g: Geometry, hdr: Memory, heads: seq<Ptr>, T: Tiling, L: seq<seq<nat>>, P: nat, i: nat, w: Wreck) {
    && Tiles(g, T) && i < g.levels == |heads| == |L| && Threads(g, hdr, heads, T, L, i + 1)
    && Spells(hdr, heads[i], [P] + L[i]) && NoRepeats(L[i]) && OfLevel(T, L[i], i)
    && Untouched(g, hdr, T, P) && WreckSize(g, hdr, T, P, i, w) && WreckChain(g, hdr, heads, T, P, i, w)
  }

  ghost predicate Untouched(g: Geometry, hdr: Memory, T: Tiling, P: nat) {
    forall x {:trigger T[x]} :: x in T ==> x in hdr && (x < P ==> hdr[x].size == Size(g, T[x]))
  }

  predicate WreckSize(g: Geometry, hdr: Memory, T: Tiling, P: nat, i: nat, w: Wreck) {
    && P in T && T[P] <= w.k <= w.a <= i && T[P] < i && P % Size(g, w.a) == 0
    && P in hdr && hdr[P].size == Size(g, w.k)
  }

  predicate WreckChain(g: Geometry, hdr: Memory, heads: seq<Ptr>, T: Tiling, P: nat, i: nat, w: Wreck) {
    && w.q != [] && w.j < i && w.j < |heads| && Leads(hdr, heads[w.j], w.q) && OfLevel(T, w.q, w.j)
    && (forall m :: 0 <= m < |w.q| - 1 ==> w.q[m] != P)
    && P <= w.q[|w.q| - 1] < P + Size(g, w.a)
  }

  // No tiling and no lists fit such a memory.
  lemma WreckHasNoPicture(g: Geometry, hdr: Memory, heads: seq<Ptr>, T: Tiling, L: seq<seq<nat>>, P: nat, i: nat, w: Wreck,
                          T': Tiling, L': seq<seq<nat>>)
    requires Wrecked(g, hdr, heads, T, L, P, i, w)
    ensures !Picture(g, hdr, heads, T', L')
  {
    hide Size, Tiles, Leads, Headers, Threads, Untouched;
    if Picture(g, hdr, heads, T', L') {
      var d := w.q[|w.q| - 1];
      assert heads[i] == To(P);
      HeadFacts(g, hdr, heads, T', L', i);
      ListFacts(g, hdr, heads, T', L', w.j);
      LeadsSpells(hdr, heads[w.j], w.q, L'[w.j], |w.q| - 1);
      assert d in L'[w.j] && T'[d] == w.j && T'[P] == i;
      SizeFacts(g, w.a, i);
      Overlaps(g, T', P, d);
    }
  }

  lemma Overlaps(g: Geometry, T: Tiling, o: nat, d: nat)
    requires o in T && d in T && o < d < o + Size(g, T[o])
    ensures !Tiles(g, T)
  {
  }

  // What a round does to lists it does not mention: links change only in the list merged from and at P.
  ghost predicate RoundLinks(hdr: Memory, hdr': Memory, q: seq<nat>, P: nat, next: Ptr) {
    && hdr'.Keys == hdr.Keys && P in hdr
    && (forall x {:trigger hdr'[x]} :: x in hdr && x != P ==> hdr'[x].size == hdr[x].size && (x !in q ==> hdr'[x].next == hdr[x].next))
    && hdr'[P].size == 2 * hdr[P].size && hdr'[P].next == next
  }

  lemma RoundLinksHold(hdr: Memory, hdr2: Memory, q: seq<nat>, heads: seq<Ptr>, P: nat, i: nat)
    requires OnlyNextOf(hdr, hdr2, q) && P in hdr && i + 1 < |heads|
    ensures RoundLinks(hdr, RoundMemory(hdr2, heads, P, i), q, P, heads[i + 1])
  {
  }

  // The lists above the round's own two, and the one that the merged block joins.
  lemma RoundThreads(g: Geometry, hdr: Memory, heads: seq<Ptr>, T: Tiling, L: seq<seq<nat>>, i: nat,
                     q: seq<nat>, P: nat, hdr': Memory, h2: Ptr)
    requires Threads(g, hdr, heads, T, L, i + 1) && i + 1 < g.levels && P in T && T[P] <= i
    requires RoundLinks(hdr, hdr', q, P, heads[i + 1]) && forall x :: x in q ==> x in T && T[x] <= i
    ensures Threads(g, hdr', RoundHeads(heads, h2, P, i), T, L, i + 2)
    ensures Spells(hdr', To(P), [P] + L[i + 1]) && NoRepeats(L[i + 1]) && OfLevel(T, L[i + 1], i + 1)
  {
    hide Spells;
    forall l {:trigger L[l]} | i + 1 <= l < g.levels ensures Spells(hdr', heads[l], L[l]) && NoRepeats(L[l]) && OfLevel(T, L[l], l) {
      ThreadsAt(g, hdr, heads, T, L, i + 1, l);
      SpellsFrame(hdr, hdr', heads[l], L[l]);
    }
    assert ([P] + L[i + 1])[1..] == L[i + 1];
    SpellsCons(hdr', P, L[i + 1]);
  }

  lemma SpellsCons(hdr: Memory, P: nat, q: seq<nat>)
    requires P in hdr && Spells(hdr, hdr[P].next, q)
    ensures Spells(hdr, To(P), [P] + q)
  {
    assert ([P] + q)[1..] == q;
  }

  // The chain survives a round; if the merged block is one of its members, it ends there from now on.
  lemma RoundChain(hdr: Memory, hdr': Memory, head: Ptr, c: seq<nat>, q: seq<nat>, P: nat, next: Ptr) returns (n: nat)
    requires Leads(hdr, head, c) && RoundLinks(hdr, hdr', q, P, next)
    requires forall m :: 0 <= m < |c| - 1 ==> c[m] !in q
    ensures 0 < n <= |c| && Leads(hdr', head, c[..n]) && (forall m :: 0 <= m < n - 1 ==> c[m] != P)
    ensures n == |c| || c[n - 1] == P
  {
    n := 1;
    while n < |c| && c[n - 1] != P
      invariant 0 < n <= |c| && forall m :: 0 <= m < n - 1 ==> c[m] != P
    {
      n := n + 1;
    }
    forall m | 0 <= m < n - 1 ensures c[m] in hdr ==> c[m] in hdr' && hdr'[c[m]].next == hdr[c[m]].next {
      assert c[m] != P && c[m] !in q;
    }
    LeadsCut(hdr, hdr', head, c, n);
  }

  lemma FirstSize(g: Geometry, hdr: Memory, T: Tiling, o: nat, c: nat, i: nat, hdr': Memory, q: seq<nat>)
    requires Tiles(g, T) && Headers(g, hdr, T) && o in T && T[o] == i < g.levels - 1 && c == OtherHalf(o, Size(g, i)) && c in T && T[c] < i
    requires var P := Lower(o, c); P in hdr && P in hdr' && hdr'[P].size == 2 * hdr[P].size
    ensures var P := Lower(o, c);
      && WreckSize(g, hdr', T, P, i + 1, Wreck(if P == o then i + 1 else T[c] + 1, i + 1, T[c], q))
      && P <= c < P + Size(g, i + 1)
  {
    hide Size, Tiles, OtherHalf;
    TilesAligned(g, T);
    StartAligned(g, T, o);
    HalfFacts(o, Size(g, i));
    SizeFacts(g, i, i);
    SizeFacts(g, T[c], T[c]);
  }

  // The first wrong merge, with a free buddy that is smaller.
  lemma FirstWreck(g: Geometry, hdr: Memory, heads: seq<Ptr>, T: Tiling, L: seq<seq<nat>>, o: nat, c: nat, i: nat, hdr2: Memory, h2: Ptr)
    returns (w: Wreck)
    requires Tiles(g, T) && Headers(g, hdr, T) && Threads(g, hdr, heads, T, L, 0) && |heads| == |L| == g.levels
    requires o in T && T[o] == i < g.levels - 1 && c == OtherHalf(o, Size(g, i)) && c in T && T[c] < i && c in L[T[c]]
    requires OnlyNextOf(hdr, hdr2, L[i])
    ensures Wrecked(g, RoundMemory(hdr2, heads, Lower(o, c), i), RoundHeads(heads, h2, Lower(o, c), i), T, L, Lower(o, c), i + 1, w)
  {
    hide Size, Tiles, Spells, Leads, OtherHalf, RoundMemory, OnlyNextOf, Threads, NoRepeats, RoundLinks, Headers, WreckSize, Untouched;
    var P, j := Lower(o, c), T[c];
    var hdr', heads' := RoundMemory(hdr2, heads, P, i), RoundHeads(heads, h2, P, i);
    HeaderAt(g, hdr, T, o);
    HeaderAt(g, hdr, T, c);
    RoundLinksHold(hdr, hdr2, L[i], heads, P, i);
    ThreadsAt(g, hdr, heads, T, L, 0, i);
    ThreadsAt(g, hdr, heads, T, L, 0, j);
    ThreadsFrom(g, hdr, heads, T, L, 0, i + 1);
    RoundThreads(g, hdr, heads, T, L, i, L[i], P, hdr', h2);
    var m :| 0 <= m < |L[j]| && L[j][m] == c;
    SpellsLeads(hdr, heads[j], L[j], m + 1);
    var q := L[j][..m + 1];
    var n := RoundChain(hdr, hdr', heads[j], q, L[i], P, heads[i + 1]);
    w := Wreck(if P == o then i + 1 else j + 1, i + 1, j, q[..n]);
    SizesAfter(g, hdr, hdr', T, L[i], P, heads[i + 1]);
    FirstSize(g, hdr, T, o, c, i, hdr', q[..n]);
    assert q[..n][n - 1] == q[n - 1];
    assert n == |q| ==> q[n - 1] == c;
  }

  lemma HeaderAt(g: Geometry, hdr: Memory, T: Tiling, o: nat)
    requires Headers(g, hdr, T) && o in T
    ensures o in hdr
  {
  }

  lemma ThreadsFrom(g: Geometry, hdr: Memory, heads: seq<Ptr>, T: Tiling, L: seq<seq<nat>>, from: nat, from': nat)
    requires Threads(g, hdr, heads, T, L, from) && from <= from'
    ensures Threads(g, hdr, heads, T, L, from')
  {
  }

  lemma SizesAfter(g: Geometry, hdr: Memory, hdr': Memory, T: Tiling, q: seq<nat>, P: nat, next: Ptr)
    requires RoundLinks(hdr, hdr', q, P, next)
    ensures P in hdr && P in hdr' && hdr'[P].size == 2 * hdr[P].size
    ensures Untouched(g, hdr, T, P) ==> Untouched(g, hdr', T, P)
    ensures Headers(g, hdr, T) ==> Untouched(g, hdr, T, P)
  {
  }

  // What the loop reads after a wrong merge: a live header at the other half of what P's size says.
  lemma WreckBuddy(g: Geometry, hdr: Memory, heads: seq<Ptr>, T: Tiling, L: seq<seq<nat>>, P: nat, i: nat, w: Wreck)
    requires Wrecked(g, hdr, heads, T, L, P, i, w)
    ensures P in hdr && i < |heads| == g.levels == |L| && Spells(hdr, heads[i], [P] + L[i]) && NoRepeats([P] + L[i])
    ensures P % Size(g, w.k) == 0 && Xor(P, hdr[P].size) == OtherHalf(P, Size(g, w.k))
    ensures i < g.levels - 1 ==> var c := Xor(P, hdr[P].size); c in T && c in hdr && T[c] <= w.k
  {
    hide Size, Tiles, Spells, Leads, Threads, OtherHalf, Xor;
    SizeFacts(g, w.k, w.a);
    DividesThrough(P, Size(g, w.a), Size(g, w.k));
    XorAtLevel(g, P, w.k);
    if i < g.levels - 1 { HalfIsLive(g, T, P, w.k); }
  }

  lemma XorAtLevel(g: Geometry, o: nat, k: nat)
    requires o % Size(g, k) == 0
    ensures Xor(o, Size(g, k)) == OtherHalf(o, Size(g, k))
  {
    hide Xor, OtherHalf;
    XorIsOtherHalf(o, g.p + k);
  }

  function NextLevels(T: Tiling, P: nat, c: nat, w: Wreck, q: seq<nat>): Wreck
    requires c in T
  {
    Wreck(if P < c then w.k + 1 else T[c] + 1, if w.k < w.a then w.a else w.a + 1, w.j, q)
  }

  lemma NextSize(g: Geometry, hdr: Memory, T: Tiling, P: nat, c: nat, i: nat, w: Wreck, hdr': Memory, q: seq<nat>)
    requires WreckSize(g, hdr, T, P, i, w) && Untouched(g, hdr, T, P) && i < g.levels - 1
    requires c == OtherHalf(P, Size(g, w.k)) && P % Size(g, w.k) == 0 && c in T && T[c] <= w.k
    requires var Q := Lower(P, c); Q in hdr && Q in hdr' && hdr'[Q].size == 2 * hdr[Q].size
    ensures var Q, w' := Lower(P, c), NextLevels(T, P, c, w, q);
      WreckSize(g, hdr', T, Q, i + 1, w') && Q <= P && P + Size(g, w.a) <= Q + Size(g, w'.a)
  {
    hide Size, OtherHalf;
    HalfFacts(P, Size(g, w.k));
    SizeFacts(g, w.k, w.k);
    SizeFacts(g, w.a, w.a);
    SizeFacts(g, T[c], T[c]);
    if w.k < w.a { UpperHalf(g, P, w.k, w.a); }
  }

  // Every later merge makes it no better.
  lemma NextWreck(g: Geometry, hdr: Memory, heads: seq<Ptr>, T: Tiling, L: seq<seq<nat>>, P: nat, c: nat, i: nat, w: Wreck, hdr2: Memory, h2: Ptr)
    returns (w': Wreck)
    requires Wrecked(g, hdr, heads, T, L, P, i, w) && i < g.levels - 1 && c == OtherHalf(P, Size(g, w.k)) && |heads| == |L| == g.levels
    requires OnlyNextOf(hdr, hdr2, [P] + L[i])
    ensures Wrecked(g, RoundMemory(hdr2, heads, Lower(P, c), i), RoundHeads(heads, h2, Lower(P, c), i), T, L, Lower(P, c), i + 1, w')
  {
    hide Size, Tiles, Spells, Leads, OtherHalf, RoundMemory, OnlyNextOf, Threads, NoRepeats, RoundLinks, Xor, Untouched, WreckSize, NextLevels;
    var Q, q := Lower(P, c), [P] + L[i];
    var hdr', heads' := RoundMemory(hdr2, heads, Q, i), RoundHeads(heads, h2, Q, i);
    WreckBuddy(g, hdr, heads, T, L, P, i, w);
    assert c in T && c in hdr && T[P] < i && T[c] <= i by { hide Wrecked; WreckLevels(g, hdr, T, P, i, w); }
    RoundLinksHold(hdr, hdr2, q, heads, Q, i);
    RoundThreads(g, hdr, heads, T, L, i, q, Q, hdr', h2);
    SizesAfter(g, hdr, hdr', T, q, Q, heads[i + 1]);
    LessUntouched(g, hdr, T, Q, P);
    var n := RoundChain(hdr, hdr', heads[w.j], w.q, q, Q, heads[i + 1]);
    w' := NextLevels(T, P, c, w, w.q[..n]);
    NextSize(g, hdr, T, P, c, i, w, hdr', w.q[..n]);
    assert w.q[..n][n - 1] == w.q[n - 1];
    assert w'.j == w.j && w'.q == w.q[..n] by { hide *; hide Wrecked; KeepsChain(T, P, c, w, w.q[..n]); }
  }

  lemma KeepsChain(T: Tiling, P: nat, c: nat, w: Wreck, q: seq<nat>)
    requires c in T
    ensures NextLevels(T, P, c, w, q).j == w.j && NextLevels(T, P, c, w, q).q == q
  {
  }

  lemma WreckLevels(g: Geometry, hdr: Memory, T: Tiling, P: nat, i: nat, w: Wreck)
    requires WreckSize(g, hdr, T, P, i, w)
    ensures P in T && T[P] < i && w.k <= i
  {
  }

  lemma LessUntouched(g: Geometry, hdr: Memory, T: Tiling, Q: nat, P: nat)
    requires Untouched(g, hdr, T, P) && Q <= P
    ensures Untouched(g, hdr, T, Q)
  {
  }

  // A start aligned to a larger size is the lower half of its pair.
  lemma UpperHalf(g: Geometry, P: nat, k: nat, a: nat)
    requires k < a && P % Size(g, a) == 0
    ensures OtherHalf(P, Size(g, k)) == P + Size(g, k)
  {
    hide Size, OtherHalf;
    SizeFacts(g, k, k);
    SizeFacts(g, k + 1, a);
    DividesThrough(P, Size(g, a), 2 * Size(g, k));
    EvenMultiple(P, Size(g, k));
  }

  lemma EvenMultiple(P: nat, m: nat)
    requires m > 0 && P % (2 * m) == 0
    ensures OtherHalf(P, m) == P + m
  {
    var q := P / (2 * m);
    assert P == q * (2 * m);
    TimesTwo(q, m);
    HalfTimes(q, m);
    Unique(P, m, 2 * q, 0);
  }

  lemma BothNext(hdr: Memory, hdr1: Memory, hdr2: Memory, q: seq<nat>, b: nat)
    requires NoRepeats(q) && OnlyNextOf(hdr, hdr1, q) && OnlyNextOf(hdr1, hdr2, Without(q, b))
    ensures OnlyNextOf(hdr, hdr2, q) && hdr2.Keys == hdr.Keys
  {
    WithoutFacts(q, b);
  }

  lemma RoundCode(hdr: Memory, hdr2: Memory, heads: seq<Ptr>, h2: Ptr, q: seq<nat>, P: nat, i: nat, heads2: seq<Ptr>)
    requires OnlyNextOf(hdr, hdr2, q) && P in hdr && i + 1 < |heads| && heads2 == heads[i := h2]
    ensures P in hdr2 && hdr2[P := hdr2[P].(size := 2 * hdr2[P].size, next := heads2[i + 1])] == RoundMemory(hdr2, heads, P, i)
    ensures heads2[i + 1 := To(P)] == RoundHeads(heads, h2, P, i)
  {
  }

  lemma MergingThreads(g: Geometry, hdr: Memory, heads: seq<Ptr>, T: Tiling, L: seq<seq<nat>>, b: nat, i: nat, listed: bool, A: Tiling, c: nat)
    requires Merging(g, hdr, heads, T, L, b, i, listed, A) && IsFree(hdr, T, c) && c != b && T[c] < g.levels
    ensures Tiles(g, T) && Headers(g, hdr, T) && Threads(g, hdr, heads, T, L, 0) && |heads| == |L| == g.levels && c in L[T[c]]
  {
    hide Size, Tiles, Spells, Headers, NoFreePairsBut, Allocated, Threads;
    MergingFacts(g, hdr, heads, T, L, b, i, listed, A);
    if listed {
      PictureThreads(g, hdr, heads, T, L, c);
    } else {
      var hdr' := Busy(hdr, b);
      PictureThreads(g, hdr', heads, T, L, c);
      BusyThreads(g, hdr, heads, T, L, b);
    }
  }

  lemma BusyThreads(g: Geometry, hdr: Memory, heads: seq<Ptr>, T: Tiling, L: seq<seq<nat>>, b: nat)
    requires Threads(g, Busy(hdr, b), heads, T, L, 0)
    ensures Threads(g, hdr, heads, T, L, 0)
  {
    hide Spells, Busy;
    forall l {:trigger L[l]} | 0 <= l < g.levels ensures Spells(hdr, heads[l], L[l]) && NoRepeats(L[l]) && OfLevel(T, L[l], l) {
      SpellsBusy(hdr, heads[l], L[l], b);
    }
  }

  lemma PictureThreads(g: Geometry, hdr: Memory, heads: seq<Ptr>, T: Tiling, L: seq<seq<nat>>, c: nat)
    requires Picture(g, hdr, heads, T, L)
    ensures Tiles(g, T) && Headers(g, hdr, T) && Threads(g, hdr, heads, T, L, 0) && |heads| == |L| == g.levels
    ensures IsFree(hdr, T, c) && T[c] < g.levels ==> c in L[T[c]]
  {
    hide Size, Tiles, Headers, Spells;
  }

  // What getbuddy finds: below the top level the header of a live block, no larger than b.
  lemma BuddyFound(g: Geometry, hdr: Memory, T: Tiling, b: nat)
    requires Tiles(g, T) && Headers(g, hdr, T) && b in T
    ensures b in hdr && T[b] < g.levels && hdr[b].size == Size(g, T[b]) && Xor(b, hdr[b].size) == OtherHalf(b, Size(g, T[b])) != b
    ensures LevelOf(hdr[b].size, Pow2(g.p)) == T[b]
    ensures T[b] < g.levels - 1 ==> var c := Xor(b, hdr[b].size); c in T && c in hdr && T[c] <= T[b] && hdr[c].size == Size(g, T[c])
    ensures T[b] < g.levels - 1 ==> var c := Xor(b, hdr[b].size); (hdr[c].size == hdr[b].size <==> T[c] == T[b])
  {
    hide Xor, LevelOf, OtherHalf;
    TilesAligned(g, T);
    StartAligned(g, T, b);
    XorIsOtherHalf(b, g.p + T[b]);
    HalfFacts(b, Size(g, T[b]));
    LevelOfSize(g, T[b]);
    if T[b] < g.levels - 1 {
      BuddyIsLive(g, T, b);
      var c := OtherHalf(b, Size(g, T[b]));
      PowOrder(g.p + T[c], g.p + T[b]);
    }
    hide Tiles;
  }

  function LevelOf(size: nat, basic: nat): nat
    requires basic > 0
  {
    Log2(size / basic)
  }

  lemma LevelOfSize(g: Geometry, i: nat)
    ensures LevelOf(Size(g, i), Pow2(g.p)) == i
  {
    PowSum(g.p, i);
    LogOfPow(i);
    hide Pow2, Log2;
    Unique(Pow2(g.p + i), Pow2(g.p), Pow2(i), 0);
  }

  lemma {:induction false} PowSum(a: nat, b: nat)
    ensures Pow2(a + b) == Pow2(b) * Pow2(a)
  {
    if b > 0 {
      PowSum(a, b - 1);
      assert Pow2(a + b) == 2 * Pow2(a + b - 1);
      Double(Pow2(b - 1), Pow2(a));
    }
  }

  lemma Double(a: nat, b: nat)
    ensures (2 * a) * b == 2 * (a * b)
  {
  }

  lemma MergingFacts(g: Geometry, hdr: Memory, heads: seq<Ptr>, T: Tiling, L: seq<seq<nat>>, b: nat, i: nat, listed: bool, A: Tiling)
    requires Merging(g, hdr, heads, T, L, b, i, listed, A)
    ensures Tiles(g, T) && Headers(g, hdr, T) && i < g.levels == |heads| == |L| && Spells(hdr, heads[i], L[i]) && NoRepeats(L[i])
    ensures b in T && T[b] == i && IsFree(hdr, T, b)
  {
    hide Size, Tiles, Spells, MeetsEqual, NoFreePairsBut, Allocated;
    if listed {
      ListFacts(g, hdr, heads, T, L, i);
    } else {
      ListFacts(g, Busy(hdr, b), heads, T, L, i);
      SpellsBusy(hdr, heads[i], L[i], b);
    }
  }

  lemma MeetsPair(g: Geometry, hdr: Memory, heads: seq<Ptr>, T: Tiling, L: seq<seq<nat>>, b: nat, i: nat, listed: bool, A: Tiling, c: nat)
    requires Merging(g, hdr, heads, T, L, b, i, listed, A) && i < g.levels - 1 && c == OtherHalf(b, Size(g, i)) && IsFree(hdr, T, c)
    ensures c in T && c != b && (T[c] == i ==> Pair(g, T, b, c, i))
    ensures T[c] != i ==> T[c] < i && !MeetsEqual(g, hdr, T, b, i)
  {
    hide Size, Picture, Loose, NoFreePairsBut, Allocated, Tiles, OtherHalf;
    MergingFacts(g, hdr, heads, T, L, b, i, listed, A);
    BuddyIsLive(g, T, b);
    TilesAligned(g, T);
    StartAligned(g, T, b);
    HalfFacts(b, Size(g, i));
  }

  // At the end of the loop no pair is left.
  lemma MergingEnds(g: Geometry, hdr: Memory, T: Tiling, b: nat, i: nat)
    requires NoFreePairsBut(g, hdr, T, b) && b in T && T[b] == i && Aligned(g, T)
    requires i == g.levels - 1 || !IsFree(hdr, T, OtherHalf(b, Size(g, i))) || T[OtherHalf(b, Size(g, i))] != i
    ensures NoFreePairs(g, hdr, T)
  {
    hide Size, OtherHalf, Aligned;
    forall o, c, j | Pair(g, T, o, c, j) ensures !(IsFree(hdr, T, o) && IsFree(hdr, T, c)) {
      if c == b {
        StartAligned(g, T, o);
        PairBack(g, T, o, b, j);
      }
    }
  }

  lemma PairBack(g: Geometry, T: Tiling, o: nat, b: nat, j: nat)
    requires Pair(g, T, o, b, j) && o % Size(g, j) == 0
    ensures o == OtherHalf(b, Size(g, j)) && T[b] == j == T[o] && j < g.levels - 1
  {
    hide Size, OtherHalf;
    HalfFacts(o, Size(g, j));
  }

  lemma RoundFirst(g: Geometry, hdr: Memory, heads: seq<Ptr>, T: Tiling, L: seq<seq<nat>>, b: nat, c: nat, i: nat, listed: bool, A: Tiling,
                   hdr': Memory, head: Ptr)
    requires Merging(g, hdr, heads, T, L, b, i, listed, A) && Pair(g, T, b, c, i) && IsFree(hdr, T, c) && |heads| == |L| == g.levels && i < g.levels
    requires OnlyNextOf(hdr, hdr', L[i]) && Spells(hdr', head, Without(L[i], b))
    ensures var L' := L[i := Without(L[i], b)];
      Loose(g, hdr', heads[i := head], T, L', b) && NoRepeats(L'[i]) && SameFlags(hdr, hdr') && IsFree(hdr', T, c)
  {
    hide Size, Picture, Loose, Without, Spells, Pair, NoFreePairsBut, MeetsEqual, Allocated;
    RoundUnlists(g, hdr, heads, T, L, b, i, listed, hdr', head);
    NextFlags(hdr, hdr', L[i]);
    MergingFacts(g, hdr, heads, T, L, b, i, listed, A);
    WithoutFacts(L[i], b);
  }

  lemma RoundSecond(g: Geometry, hdr0: Memory, heads0: seq<Ptr>, T: Tiling, L0: seq<seq<nat>>, b: nat, c: nat, i: nat, listed: bool, A: Tiling,
                    hdr: Memory, heads: seq<Ptr>, L: seq<seq<nat>>, hdr': Memory, head: Ptr)
    requires Merging(g, hdr0, heads0, T, L0, b, i, listed, A) && Pair(g, T, b, c, i) && IsFree(hdr0, T, c)
    requires Loose(g, hdr, heads, T, L, b) && SameFlags(hdr0, hdr) && IsFree(hdr, T, c) && |heads| == |L| == g.levels && i < g.levels - 1
    requires OnlyNextOf(hdr, hdr', L[i]) && Spells(hdr', head, Without(L[i], c))
    ensures var P, T' := Lower(b, c), MergeAt(T, b, c, i);
      var hdr1, heads1, L1 := Merged(hdr', P), heads[i := head], L[i := Without(L[i], c)];
      && P in hdr' && hdr1 == hdr'[P := hdr'[P].(size := 2 * hdr'[P].size)]
      && Merging(g, hdr1[P := hdr1[P].(next := heads1[i + 1])], heads1[i + 1 := To(P)], T', L1[i + 1 := [P] + L1[i + 1]], P, i + 1, true, A)
      && (MeetsEqual(g, hdr0, T, b, i) <==> MeetsEqual(g, hdr1[P := hdr1[P].(next := heads1[i + 1])], T', P, i + 1))
  {
    hide Size, Picture, Loose, Without, Spells, NoFreePairsBut, MeetsEqual, Allocated, Tiles, OtherHalf;
    MergingFacts(g, hdr0, heads0, T, L0, b, i, listed, A);
    TilesAligned(g, T);
    PairFacts(g, T, b, c, i);
    RoundUnlistsBuddy(g, hdr, heads, T, L, b, c, i, hdr', head);
    NextFlags(hdr, hdr', L[i]);
    FlagsTrans(hdr0, hdr, hdr');
    RoundMerges(g, hdr0, T, b, c, i, A, hdr', heads[i := head], L[i := Without(L[i], c)]);
  }

  // free marks the block; it is on no list yet.
  lemma FreeStarts(g: Geometry, hdr: Memory, heads: seq<Ptr>, T: Tiling, L: seq<seq<nat>>, o: nat)
    requires Picture(g, hdr, heads, T, L) && NoFreePairs(g, hdr, T) && o in T && o in hdr && !hdr[o].free
    ensures Loose(g, Freed(hdr, o), heads, T, L, o) && NoFreePairsBut(g, Freed(hdr, o), T, o) && |heads| == |L| == g.levels
    ensures Allocated(Freed(hdr, o), T) == map q | q in Allocated(hdr, T) && q != o :: T[q]
    ensures IsFree(Freed(hdr, o), T, o) && Headers(g, Freed(hdr, o), T) && Tiles(g, T)
    ensures forall x :: x != o ==> (IsFree(Freed(hdr, o), T, x) <==> IsFree(hdr, T, x))
  {
    hide Size, Tiles, Pair;
    assert Busy(Freed(hdr, o), o) == hdr;
  }

  // The first n blocks of the top level are laid out, all free.
  ghost predicate Laid(g: Geometry, hdr: Memory, heads: seq<Ptr>, T: Tiling, L: seq<seq<nat>>, n: nat) {
    && g.levels > 0 && hdr.Keys == T.Keys && Lists(g, hdr, heads, T, L)
    && (forall o {:trigger T[o]} :: o in T ==> T[o] == g.levels - 1 && hdr[o].size == Size(g, g.levels - 1) && hdr[o].free)
    && (forall k: nat {:trigger TopBlock(g, k)} :: k < n ==> TopBlock(g, k) in T)
    && (forall o :: o in T ==> exists k: nat {:trigger TopBlock(g, k)} :: k < n && o == TopBlock(g, k))
  }

  function TopBlock(g: Geometry, k: nat): nat
    requires g.levels > 0
  {
    k * Size(g, g.levels - 1)
  }

  lemma LaidNone(g: Geometry)
    requires g.levels > 0
    ensures Laid(g, map[], seq(g.levels, _ => Null), map[], seq(g.levels, _ => []), 0)
  {
  }

  lemma TopOrder(g: Geometry, j: nat, k: nat)
    requires g.levels > 0
    ensures j < k ==> TopBlock(g, j) + Size(g, g.levels - 1) <= TopBlock(g, k)
    ensures TopBlock(g, j) % Size(g, g.levels - 1) == 0
  {
    hide Size;
    var m := Size(g, g.levels - 1);
    Unique(j * m, m, j, 0);
    Neighbours(j, m);
    if j < k { Scaled(j + 1, k, m); }
  }

  lemma LaidMore(g: Geometry, hdr: Memory, heads: seq<Ptr>, T: Tiling, L: seq<seq<nat>>, n: nat)
    requires Laid(g, hdr, heads, T, L, n)
    ensures |heads| == |L| == g.levels
    ensures var o, i := TopBlock(g, n), g.levels - 1;
      Laid(g, hdr[o := Header(true, Size(g, i), heads[i])], heads[i := To(o)], T[o := i], L[i := [o] + L[i]], n + 1)
  {
    hide Size, TopBlock, Spells, ListOf;
    var o, i := TopBlock(g, n), g.levels - 1;
    if o in T {
      var k: nat :| k < n && o == TopBlock(g, k);
      TopOrder(g, k, n);
    }
    var hdr1 := hdr[o := Header(true, Size(g, i), Null)];
    MoreMemory(g, hdr, heads, T, L, o, Header(true, Size(g, i), Null));
    ListsGrow(g, hdr1, heads, T, L, o, i);
    assert hdr1[o := hdr1[o].(next := heads[i])] == hdr[o := Header(true, Size(g, i), heads[i])];
  }

  lemma MoreMemory(g: Geometry, hdr: Memory, heads: seq<Ptr>, T: Tiling, L: seq<seq<nat>>, o: nat, h: Header)
    requires Lists(g, hdr, heads, T, L) && o !in T
    ensures Lists(g, hdr[o := h], heads, T, L)
  {
    hide Spells;
    forall j {:trigger L[j]} | 0 <= j < g.levels ensures Spells(hdr[o := h], heads[j], L[j]) && ListOf(hdr[o := h], T, j, L[j]) {
      ListFacts(g, hdr, heads, T, L, j);
      SpelledIsLive(hdr, heads[j], L[j]);
      ListStays(hdr, T, heads[j], L[j], hdr[o := h], T, j);
    }
  }

  lemma LaidAll(g: Geometry, hdr: Memory, heads: seq<Ptr>, T: Tiling, L: seq<seq<nat>>)
    requires Laid(g, hdr, heads, T, L, g.count)
    ensures Picture(g, hdr, heads, T, L) && NoFreePairs(g, hdr, T) && Allocated(hdr, T) == map[]
  {
    hide Size, Lists, TopBlock;
    LaidAligned(g, hdr, heads, T, L);
    LaidCovers(g, hdr, heads, T, L);
    hide Aligned, Disjoint, Full, Total;
  }

  lemma LaidAligned(g: Geometry, hdr: Memory, heads: seq<Ptr>, T: Tiling, L: seq<seq<nat>>)
    requires Laid(g, hdr, heads, T, L, g.count)
    ensures Aligned(g, T) && Disjoint(g, T)
  {
    hide Size, Lists, TopBlock;
    TotalIsTop(g);
    forall o | o in T ensures T[o] < g.levels && o % Size(g, T[o]) == 0 && EndOf(g, T, o) <= Total(g) {
      var k: nat :| k < g.count && o == TopBlock(g, k);
      TopOrder(g, k, g.count);
    }
    forall o, q | o in T && q in T && o < q ensures EndOf(g, T, o) <= q {
      var j: nat :| j < g.count && o == TopBlock(g, j);
      var k: nat :| k < g.count && q == TopBlock(g, k);
      TopOrder(g, j, k);
      TopOrder(g, k, j);
    }
  }

  lemma TotalIsTop(g: Geometry)
    requires g.levels > 0
    ensures Total(g) == TopBlock(g, g.count)
  {
  }

  lemma LaidCovers(g: Geometry, hdr: Memory, heads: seq<Ptr>, T: Tiling, L: seq<seq<nat>>)
    requires Laid(g, hdr, heads, T, L, g.count)
    ensures Full(g, T)
  {
    hide Size, Lists;
    var m := Size(g, g.levels - 1);
    forall x: nat | x < Total(g) ensures Covered(g, T, x) {
      var k := x / m;
      assert x == k * m + x % m;
      if k >= g.count { Scaled(g.count, k, m); }
      assert InBlock(g, T, x, TopBlock(g, k));
    }
  }

  class Buddy {
    const g: Geometry
    var hdr: Memory
    var heads: seq<Ptr>
    // the tiling that the headers describe, and the contents of the lists
    ghost var T: Tiling
    ghost var L: seq<seq<nat>>

    ghost predicate Valid()
      reads this
    {
      Picture(g, hdr, heads, T, L) && NoFreePairs(g, hdr, T)
    }

    // Lines 27-50: the region as free blocks of the top level
    constructor (g: Geometry)
      requires g.levels > 0
      ensures this.g == g && Valid() && Allocated(hdr, T) == map[]
    {
      this.g := g;
      hdr, heads, T, L := map[], seq(g.levels, _ => Null), map[], seq(g.levels, _ => []);
      new;
      hide Size, Laid, Picture, NoFreePairs, Allocated;
      var k, temp, size := 0, 0, Size(g, g.levels - 1);
      LaidNone(g);
      while k < g.count
        invariant k <= g.count && temp == k * size && Laid(g, hdr, heads, T, L, k)
      {
        LaidMore(g, hdr, heads, T, L, k);
        Neighbours(k, size);
        ghost var hdr0, heads0 := hdr, heads;
        hdr := hdr[temp := Header(true, size, Null)];
        Insert(g.levels - 1, temp);
        assert hdr == hdr0[temp := Header(true, size, heads0[g.levels - 1])];
        T := T[temp := g.levels - 1];
        L := L[g.levels - 1 := [temp] + L[g.levels - 1]];
        k, temp := k + 1, temp + size;
      }
      LaidAll(g, hdr, heads, T, L);
    }

    // LinkedList::remove
    method Remove(i: nat, b: nat, ghost q: seq<nat>)
      requires i < |heads| && Spells(hdr, heads[i], q) && NoRepeats(q)
      modifies this`hdr, this`heads
      ensures |heads| == |old(heads)| && heads == old(heads)[i := heads[i]]
      ensures Spells(hdr, heads[i], Without(q, b)) && OnlyNextOf(old(hdr), hdr, q)
    {
      hide Spells, Without, NoRepeats, OnlyNextOf, Removing;
      var curr := heads[i];
      if heads[i] == To(b) {
        RemoveHead(hdr, heads[i], q, b);
        heads := heads[i := hdr[b].next];
      } else {
        ghost var w, k, hdr0 := q, 0, hdr;
        RemovingStart(hdr, heads[i], q, b);
        while curr != Null
          invariant heads == old(heads) && hdr0 == old(hdr) && Removing(hdr0, hdr, heads[i], q, w, k, b, curr)
          decreases |w| - k
        {
          RemovingAt(hdr0, hdr, heads[i], q, w, k, b, curr);
          if hdr[curr.off].next == To(b) {
            RemovingCut(hdr0, hdr, heads[i], q, w, k, b, curr);
            hdr := hdr[curr.off := hdr[curr.off].(next := hdr[b].next)];
            w := w[..k + 1] + w[k + 2..];
          } else {
            RemovingPass(hdr0, hdr, heads[i], q, w, k, b, curr);
          }
          k := k + 1;
          curr := hdr[curr.off].next;
        }
        RemovingEnd(hdr0, hdr, heads[i], q, w, k, b, curr);
      }
    }

    // LinkedList::insert: a block that is not on the list is put in front of it, and nothing but its
    // own link and the list's head changes.
    method Insert(i: nat, b: nat)
      requires i < |heads| && b in hdr
      modifies this`hdr, this`heads
      ensures hdr == old(hdr)[b := old(hdr)[b].(next := old(heads)[i])] && heads == old(heads)[i := To(b)]
      ensures forall q :: old(Spells(hdr, heads[i], q)) && b !in q ==> Spells(hdr, heads[i], [b] + q)
    {
      ghost var hdr0, head0 := hdr, heads[i];
      hdr := hdr[b := hdr[b].(next := heads[i])];
      heads := heads[i := To(b)];
      forall q | Spells(hdr0, head0, q) && b !in q ensures Spells(hdr, heads[i], [b] + q) {
        SpellsFrame(hdr0, hdr, head0, q);
        assert ([b] + q)[1..] == q;
      }
    }

    // Lines 127-157: the first level that has a block and is large enough
    method FirstFit(need: nat) returns (i: nat)
      requires Valid() && exists k :: 0 <= k < |L| == g.levels && L[k] != [] && need <= Size(g, k)
      ensures i < |heads| && heads[i].To? && heads[i].off in hdr && hdr[heads[i].off].size == Size(g, i)
      ensures Searching(g, hdr, heads, T, L, i, heads[i].off, need, Allocated(hdr, T))
    {
      hide Size, Tiles, Headers, NoFreePairs, Pair, IsFree;
      ghost var k :| 0 <= k < |L| == g.levels && L[k] != [] && need <= Size(g, k);
      HeadFacts(g, hdr, heads, T, L, k);
      i := 0;
      while heads[i] == Null || need > Size(g, i)
        invariant i <= k && forall j {:trigger L[j]} :: 0 <= j < i ==> L[j] == [] || need > Size(g, j)
        decreases k - i
      {
        HeadFacts(g, hdr, heads, T, L, i);
        i := i + 1;
      }
      HeadFacts(g, hdr, heads, T, L, i);
      PairsBut(g, hdr, T, heads[i].off);
    }

    // Lines 162-165
    method SplitFirst(i: nat, ghost o: nat, ghost need: nat, ghost A: Tiling)
      requires Searching(g, hdr, heads, T, L, i, o, need, A) && Size(g, i) / 2 > need && Size(g, i) / 2 >= Size(g, 0)
      requires i < |heads| && heads[i] == To(o) && o in hdr && hdr[o].size == Size(g, i)
      modifies this
      ensures i > 0 && Searching(g, hdr, heads, T, L, i - 1, o, need, A) && o in hdr && hdr[o].size == Size(g, i - 1)
      ensures i <= |heads| && heads[i - 1] == To(o)
    {
      hide *;
      SearchSplits(g, hdr, heads, T, L, i, o, need, A);
      ghost var hdr0, h := hdr, Size(g, i - 1);
      var block := heads[i].off;
      var b := hdr[block].next;
      var half := hdr[block].size / 2;
      hdr := hdr[block + half := Header(true, half, Null)];
      hdr := hdr[block := hdr[block].(next := To(block + half), size := half)];
      heads := heads[i - 1 := To(block)];
      heads := heads[i := b];
      SplitCode(hdr0, hdr, o, h);
      T := SplitAt(g, T, o);
      L := L[i - 1 := [o, o + h]][i := L[i][1..]];
    }

    // One round of the loop at lines 185-191.  It is a merge of two equal buddies if the buddy met has
    // the block's size, and wrecks the heap otherwise; after that, T and L stay what they were.
    method MergeRound(b: nat, i: nat, ghost good: bool, ghost listed: bool, ghost A: Tiling, ghost w: Wreck)
      returns (P: nat, ghost good': bool, ghost w': Wreck)
      requires i < g.levels - 1 && b in hdr && Xor(b, hdr[b].size) in hdr
      requires var c := Xor(b, hdr[b].size);
        if good then Merging(g, hdr, heads, T, L, b, i, listed, A) && IsFree(hdr, T, c) && c == OtherHalf(b, Size(g, i))
        else Wrecked(g, hdr, heads, T, L, b, i, w)
      modifies this
      ensures if good' then Merging(g, hdr, heads, T, L, P, i + 1, true, A) else Wrecked(g, hdr, heads, T, L, P, i + 1, w')
      ensures good' ==> good && (old(MeetsEqual(g, hdr, T, b, i)) <==> MeetsEqual(g, hdr, T, P, i + 1))
      ensures good && !good' ==> !old(MeetsEqual(g, hdr, T, b, i))
    {
      hide *;
      ghost var hdr0, heads0, L0 := hdr, heads, L;
      var buddy := Xor(b, hdr[b].size);
      if good {
        MergingFacts(g, hdr, heads, T, L, b, i, listed, A);
        MeetsPair(g, hdr, heads, T, L, b, i, listed, A, buddy);
      } else {
        WreckBuddy(g, hdr, heads, T, L, b, i, w);
      }
      ghost var q := if good then L[i] else [b] + L[i];
      good', w' := good && T[buddy] == i, w;
      WithoutFacts(q, b);
      Remove(i, b, q);
      ghost var hdr1, heads1 := hdr, heads;
      if good' {
        L := L[i := Without(L[i], b)];
        RoundFirst(g, hdr0, heads0, T, L0, b, buddy, i, listed, A, hdr1, heads1[i]);
      }
      ghost var L1 := L;
      Remove(i, buddy, Without(q, b));
      ghost var hdr2, heads2 := hdr, heads;
      BothNext(hdr0, hdr1, hdr2, q, b);
      P := Lower(b, buddy);
      LowerIsOne(b, buddy);
      hdr := hdr[P := hdr[P].(size := 2 * hdr[P].size)];
      Insert(i + 1, P);
      if good' {
        L := L[i := Without(L[i], buddy)];
        RoundSecond(g, hdr0, heads0, T, L0, b, buddy, i, listed, A, hdr1, heads1, L1, hdr2, heads2[i]);
        T := MergeAt(T, b, buddy, i);
        L := L[i + 1 := [P] + L[i + 1]];
      } else {
        assert hdr == RoundMemory(hdr2, heads0, P, i) && heads == RoundHeads(heads0, heads2[i], P, i) by {
          RoundCode(hdr0, hdr2, heads0, heads2[i], q, P, i, heads2);
        }
        if good {
          MergingThreads(g, hdr0, heads0, T, L, b, i, listed, A, buddy);
          w' := FirstWreck(g, hdr0, heads0, T, L, b, buddy, i, hdr2, heads2[i]);
        } else {
          w' := NextWreck(g, hdr0, heads0, T, L, b, buddy, i, w, hdr2, heads2[i]);
        }
      }
    }

    // alloc, for requests that some level can serve.  The result is a new allocated block; it is
    // large enough and, unless it is of the smallest size, at most twice as large as needed.
    method Alloc(length: nat) returns (a: nat)
      requires Valid() && exists i :: 0 <= i < |L| == g.levels && L[i] != [] && length + HEADER <= Size(g, i)
      modifies this
      ensures Valid() && a >= HEADER && a - HEADER in T
      ensures a - HEADER !in Allocated(old(hdr), old(T))
      ensures Allocated(hdr, T) == Allocated(old(hdr), old(T))[a - HEADER := T[a - HEADER]]
      ensures var size := Size(g, T[a - HEADER]); length + HEADER <= size && (size == Size(g, 0) || size <= 2 * (length + HEADER))
    {
      hide Size, Picture, NoFreePairs, Allocated, Searching, Spells, Without, OnlyNextOf, NoRepeats, Busy;
      var need := length + HEADER;
      var i: nat := FirstFit(need);
      var o := heads[i].off;
      ghost var A := Allocated(hdr, T);
      while hdr[o].size / 2 > need && hdr[o].size / 2 >= Size(g, 0)
        invariant Searching(g, hdr, heads, T, L, i, o, need, A) && o in hdr && hdr[o].size == Size(g, i)
        invariant i < |heads| && heads[i] == To(o)
        decreases i
      {
        SplitFirst(i, o, need, A);
        i := i - 1;
      }
      SearchEnds(g, hdr, heads, T, L, i, o, need, A);
      ghost var hdr0, heads0 := hdr, heads;
      Remove(i, o, L[i]);
      SearchTakes(g, hdr0, heads0, T, L, i, o, need, A, hdr, heads[i]);
      hdr := Busy(hdr, o);
      L := L[i := Without(L[i], o)];
      a := o + HEADER;
    }

    // The buddy of the block is not free, or of another size, or every free buddy that the merge loop
    // goes on to meet has the size of the block it is merging.
    ghost predicate MeetsOnlyEqual(o: nat)
      requires o in T
      reads this
    {
      var b := OtherHalf(o, Size(g, T[o]));
      IsFree(hdr, T, b) && T[b] == T[o] ==> MeetsEqual(g, hdr, T, Lower(o, b), T[o] + 1)
    }

    // free of a block below the top level.  If the loop meets only free buddies of equal size, that one
    // block is no longer allocated and the heap is as described by `Valid`; otherwise what it leaves
    // behind is described by no tiling and no lists at all.
    method Free(a: nat)
      requires Valid() && a >= HEADER && a - HEADER in Allocated(hdr, T) && T[a - HEADER] < g.levels - 1
      modifies this
      ensures old(MeetsOnlyEqual(a - HEADER)) ==> Valid()
      ensures old(MeetsOnlyEqual(a - HEADER)) ==>
        Allocated(hdr, T) == map q | q in Allocated(old(hdr), old(T)) && q != a - HEADER :: old(T)[q]
      ensures (exists T', L' :: Picture(g, hdr, heads, T', L')) <==> old(MeetsOnlyEqual(a - HEADER))
    {
      hide Size, Picture, NoFreePairs, NoFreePairsBut, Loose, Tiles, Headers, Merging, MeetsEqual, OtherHalf, Xor, LevelOf, Freed, Allocated, Wrecked;
      var b: nat := a - HEADER;
      InAllocated(hdr, T, b);
      ghost var hdr0, meets := hdr, MeetsOnlyEqual(b);
      FreeStarts(g, hdr, heads, T, L, b);
      hdr := Freed(hdr, b);
      BuddyFound(g, hdr, T, b);
      ghost var A := Allocated(hdr, T);
      var i: nat := LevelOf(hdr[b].size, Pow2(g.p));
      var buddy := Xor(b, hdr[b].size);
      if hdr[buddy].free && hdr[b].size == hdr[buddy].size {
        ghost var good, listed, w := true, false, Wreck(0, 0, 0, []);
        FreeMeets(g, hdr0, heads, T, L, b, buddy, i, A);
        var buddyFree := true;
        while buddyFree && i < g.levels - 1
          invariant i < g.levels && b in hdr && buddy == Xor(b, hdr[b].size) && (i < g.levels - 1 ==> buddy in hdr)
          invariant if good then Merging(g, hdr, heads, T, L, b, i, listed, A) else Wrecked(g, hdr, heads, T, L, b, i, w)
          invariant good ==> buddy == OtherHalf(b, Size(g, i)) && (i < g.levels - 1 ==> (buddyFree <==> IsFree(hdr, T, buddy)))
          invariant good ==> listed || (buddyFree && i < g.levels - 1)
          invariant meets <==> good && MeetsEqual(g, hdr, T, b, i)
          decreases g.levels - i
        {
          b, good, w := MergeRound(b, i, good, listed, A, w);
          i, listed := i + 1, true;
          if good {
            MergingFacts(g, hdr, heads, T, L, b, i, listed, A);
            BuddyFound(g, hdr, T, b);
          } else {
            WreckBuddy(g, hdr, heads, T, L, b, i, w);
          }
          buddy := Xor(b, hdr[b].size);
          buddyFree := buddy in hdr && hdr[buddy].free;
        }
        if good {
          FreeEnds(g, hdr, heads, T, L, b, i, A);
          MeetsEnds(g, hdr, T, b, i);
        } else {
          forall T', L' ensures !Picture(g, hdr, heads, T', L') { WreckHasNoPicture(g, hdr, heads, T, L, b, i, w, T', L'); }
        }
      } else {
        FreeInserts(g, hdr, heads, T, L, b, i);
        Insert(i, b);
        L := L[i := [b] + L[i]];
      }
    }

    // The recovering constructor, lines 51-62, on the headers that a run left behind: walking by block
    // size visits every block of the tiling once and stops at the end of the region; the rebuilt
    // lists are equal, as sets, to those the run had.
    method Recover() returns (ghost visited: seq<nat>)
      requires g.levels > 0 && Tiles(g, T) && Headers(g, hdr, T)
      modifies this`hdr, this`heads, this`L
      ensures Picture(g, hdr, heads, T, L) && SameFlags(old(hdr), hdr)
      ensures Ascending(visited) && forall o :: o in visited <==> o in T
      ensures old(Picture(g, hdr, heads, T, L)) ==>
        |old(L)| == |L| && forall i, o :: 0 <= i < |L| ==> (o in L[i] <==> o in old(L)[i])
    {
      hide Size, Tiles, Headers, Walking, LevelOf, Picture, SameFlags;
      heads, L, visited := seq(g.levels, _ => Null), seq(g.levels, _ => []), [];
      ghost var hdr0 := hdr;
      var curr := 0;
      WalkStarts(g, hdr, T);
      while curr < Total(g)
        invariant Walking(g, hdr0, hdr, heads, T, L, visited, curr)
        decreases Total(g) - curr
      {
        WalkReads(g, hdr0, hdr, heads, T, L, visited, curr);
        ghost var hdr1, heads1, L1 := hdr, heads, L;
        if hdr[curr].free {
          var idx := LevelOf(hdr[curr].size, Pow2(g.p));
          Insert(idx, curr);
          L := L[idx := [curr] + L[idx]];
        }
        WalkNext(g, hdr0, hdr1, heads1, T, L1, visited, curr);
        visited := visited + [curr];
        curr := curr + hdr[curr].size;
      }
      WalkEnds(g, hdr0, hdr, heads, T, L, visited, curr);
      SameLists(g, hdr0, old(heads), T, old(L), hdr, heads, L);
    }
  }

  function UpTo(T: Tiling, x: nat): Tiling {
    map o | o in T && o < x :: T[o]
  }

  predicate SameButNext(hdr: Memory, hdr': Memory) {
    hdr'.Keys == hdr.Keys && forall o {:trigger hdr'[o]} {:trigger hdr[o]} :: o in hdr ==> hdr'[o].free == hdr[o].free && hdr'[o].size == hdr[o].size
  }

  // The blocks below curr are visited and their free ones are on the lists.
  ghost predicate Walking(g: Geometry, hdr0: Memory, hdr: Memory, heads: seq<Ptr>, T: Tiling, L: seq<seq<nat>>, visited: seq<nat>, curr: nat) {
    && Tiles(g, T) && Headers(g, hdr0, T) && SameButNext(hdr0, hdr) && Lists(g, hdr, heads, UpTo(T, curr), L)
    && (curr == Total(g) || curr in T) && curr <= Total(g)
    && Visited(T, visited, curr)
  }

  lemma WalkStarts(g: Geometry, hdr: Memory, T: Tiling)
    requires Tiles(g, T) && Headers(g, hdr, T)
    ensures Walking(g, hdr, hdr, seq(g.levels, _ => Null), T, seq(g.levels, _ => []), [], 0)
  {
    hide Size;
    if 0 < Total(g) {
      assert Covered(g, T, 0);
      var s: nat :| InBlock(g, T, 0, s);
    }
    hide Tiles, Headers, Aligned, Disjoint, Full;
  }

  lemma WalkReads(g: Geometry, hdr0: Memory, hdr: Memory, heads: seq<Ptr>, T: Tiling, L: seq<seq<nat>>, visited: seq<nat>, curr: nat)
    requires Walking(g, hdr0, hdr, heads, T, L, visited, curr) && curr < Total(g)
    ensures curr in T && curr in hdr && T[curr] < g.levels == |heads| == |L| && hdr[curr].size == Size(g, T[curr])
    ensures LevelOf(hdr[curr].size, Pow2(g.p)) == T[curr]
  {
    hide Size, Tiles, LevelOf;
    TilesAligned(g, T);
    StartAligned(g, T, curr);
    LevelOfSize(g, T[curr]);
  }

  // A visited block joins the tiling of the lists.
  lemma ListsGrow(g: Geometry, hdr: Memory, heads: seq<Ptr>, T: Tiling, L: seq<seq<nat>>, o: nat, i: nat)
    requires Lists(g, hdr, heads, T, L) && o !in T && o in hdr && i < g.levels == |heads| == |L|
    ensures if hdr[o].free then Lists(g, hdr[o := hdr[o].(next := heads[i])], heads[i := To(o)], T[o := i], L[i := [o] + L[i]])
            else Lists(g, hdr, heads, T[o := i], L)
  {
    hide Spells;
    var T' := T[o := i];
    if hdr[o].free {
      var hdr', heads', L' := hdr[o := hdr[o].(next := heads[i])], heads[i := To(o)], L[i := [o] + L[i]];
      forall j {:trigger L'[j]} | 0 <= j < g.levels ensures Spells(hdr', heads'[j], L'[j]) && ListOf(hdr', T', j, L'[j]) {
        ListFacts(g, hdr, heads, T, L, j);
        if j == i { GrowOwn(hdr, heads[i], T, L[i], o, i); } else { ListStays(hdr, T, heads[j], L[j], hdr', T', j); }
      }
    } else {
      forall j {:trigger L[j]} | 0 <= j < g.levels ensures Spells(hdr, heads[j], L[j]) && ListOf(hdr, T', j, L[j]) {
        ListFacts(g, hdr, heads, T, L, j);
      }
    }
  }

  lemma GrowOwn(hdr: Memory, head: Ptr, T: Tiling, q: seq<nat>, o: nat, i: nat)
    requires o in hdr && hdr[o].free && o !in T && Spells(hdr, head, q) && ListOf(hdr, T, i, q)
    ensures var hdr' := hdr[o := hdr[o].(next := head)]; Spells(hdr', To(o), [o] + q) && ListOf(hdr', T[o := i], i, [o] + q)
  {
    var hdr' := hdr[o := hdr[o].(next := head)];
    assert o !in q;
    SpellsFrame(hdr, hdr', head, q);
    assert ([o] + q)[1..] == q;
  }

  lemma WalkNext(g: Geometry, hdr0: Memory, hdr: Memory, heads: seq<Ptr>, T: Tiling, L: seq<seq<nat>>, visited: seq<nat>, curr: nat)
    requires Walking(g, hdr0, hdr, heads, T, L, visited, curr) && curr < Total(g)
    requires curr in T && curr in hdr && T[curr] < g.levels == |heads| == |L| && hdr[curr].size == Size(g, T[curr])
    ensures var i, next := T[curr], curr + hdr[curr].size;
      if hdr[curr].free then
        Walking(g, hdr0, hdr[curr := hdr[curr].(next := heads[i])], heads[i := To(curr)], T, L[i := [curr] + L[i]], visited + [curr], next)
      else Walking(g, hdr0, hdr, heads, T, L, visited + [curr], next)
  {
    hide Size, Tiles, Headers, Lists, Visited, UpTo;
    var i, next := T[curr], curr + hdr[curr].size;
    EndIsStart(g, T, curr);
    TilesAligned(g, T);
    StartAligned(g, T, curr);
    NoneBetween(g, T, curr);
    NotYet(T, curr);
    ListsGrow(g, hdr, heads, UpTo(T, curr), L, curr, i);
    VisitNext(T, visited, curr, next);
  }

  lemma NotYet(T: Tiling, curr: nat)
    ensures curr !in UpTo(T, curr)
  {
  }

  ghost predicate Visited(T: Tiling, visited: seq<nat>, curr: nat) {
    Ascending(visited) && forall o :: o in visited <==> o in T && o < curr
  }

  lemma VisitNext(T: Tiling, visited: seq<nat>, curr: nat, next: nat)
    requires Visited(T, visited, curr) && curr in T && curr < next && UpTo(T, next) == UpTo(T, curr)[curr := T[curr]]
    ensures Visited(T, visited + [curr], next)
  {
    forall o ensures o in visited + [curr] <==> o in T && o < next {
      assert o in UpTo(T, next) <==> o in UpTo(T, curr) || o == curr;
    }
    forall i | 0 <= i < |visited| ensures visited[i] < curr { assert visited[i] in visited; }
  }

  lemma NoneBetween(g: Geometry, T: Tiling, o: nat)
    requires Tiles(g, T) && o in T
    ensures UpTo(T, o + Size(g, T[o])) == UpTo(T, o)[o := T[o]]
  {
  }

  lemma WalkEnds(g: Geometry, hdr0: Memory, hdr: Memory, heads: seq<Ptr>, T: Tiling, L: seq<seq<nat>>, visited: seq<nat>, curr: nat)
    requires Walking(g, hdr0, hdr, heads, T, L, visited, curr) && curr >= Total(g)
    ensures curr == Total(g) && Picture(g, hdr, heads, T, L) && SameFlags(hdr0, hdr)
    ensures Ascending(visited) && forall o :: o in visited <==> o in T
  {
  }

  lemma SameLists(g: Geometry, hdr: Memory, heads: seq<Ptr>, T: Tiling, L: seq<seq<nat>>, hdr': Memory, heads': seq<Ptr>, L': seq<seq<nat>>)
    requires Picture(g, hdr', heads', T, L') && SameFlags(hdr, hdr')
    ensures Picture(g, hdr, heads, T, L) ==> |L| == |L'| && forall i, o :: 0 <= i < |L'| ==> (o in L'[i] <==> o in L[i])
  {
  }

  lemma InAllocated(hdr: Memory, T: Tiling, o: nat)
    requires o in Allocated(hdr, T)
    ensures o in T && o in hdr && !hdr[o].free
  {
  }

  lemma FreeMeets(g: Geometry, hdr: Memory, heads: seq<Ptr>, T: Tiling, L: seq<seq<nat>>, o: nat, b: nat, i: nat, A: Tiling)
    requires Loose(g, Freed(hdr, o), heads, T, L, o) && NoFreePairsBut(g, Freed(hdr, o), T, o) && Allocated(Freed(hdr, o), T) == A
    requires Tiles(g, T) && o in T && T[o] == i < g.levels - 1 && b == OtherHalf(o, Size(g, i)) && IsFree(Freed(hdr, o), T, b) && T[b] == i
    requires IsFree(Freed(hdr, o), T, o) && |heads| == |L| == g.levels && IsFree(hdr, T, b)
    ensures Merging(g, Freed(hdr, o), heads, T, L, o, i, false, A)
    ensures MeetsEqual(g, Freed(hdr, o), T, o, i) <==> MeetsEqual(g, hdr, T, Lower(o, b), i + 1)
  {
    hide Size, Loose, NoFreePairsBut, Allocated, Tiles, OtherHalf;
    TilesAligned(g, T);
    PairFacts(g, T, o, b, i);
    var P, hdr' := Lower(o, b), Freed(hdr, o);
    assert o in {P, P + Size(g, i)};
    forall x: nat | x < P || x >= P + Size(g, i + 1) ensures AgreeAt(hdr, T, hdr', T, x) {
      assert x != o;
    }
    MeetsFrame(g, hdr, T, hdr', T, P, i + 1);
  }

  lemma MeetsEnds(g: Geometry, hdr: Memory, T: Tiling, b: nat, i: nat)
    requires i == g.levels - 1 || !IsFree(hdr, T, OtherHalf(b, Size(g, i)))
    ensures MeetsEqual(g, hdr, T, b, i)
  {
  }

  lemma FreeEnds(g: Geometry, hdr: Memory, heads: seq<Ptr>, T: Tiling, L: seq<seq<nat>>, b: nat, i: nat, A: Tiling)
    requires Merging(g, hdr, heads, T, L, b, i, true, A)
    requires i == g.levels - 1 || !IsFree(hdr, T, OtherHalf(b, Size(g, i)))
    ensures Picture(g, hdr, heads, T, L) && NoFreePairs(g, hdr, T) && Allocated(hdr, T) == A
  {
    hide Size, Tiles, Headers, Lists, NoFreePairs, NoFreePairsBut, OtherHalf, Allocated;
    TilesAligned(g, T);
    MergingEnds(g, hdr, T, b, i);
  }

  lemma FreeInserts(g: Geometry, hdr: Memory, heads: seq<Ptr>, T: Tiling, L: seq<seq<nat>>, o: nat, i: nat)
    requires Loose(g, hdr, heads, T, L, o) && NoFreePairsBut(g, hdr, T, o) && T[o] == i < g.levels && |heads| == |L| == g.levels
    requires i == g.levels - 1 || !IsFree(hdr, T, OtherHalf(o, Size(g, i))) || T[OtherHalf(o, Size(g, i))] != i
    ensures var hdr' := hdr[o := hdr[o].(next := heads[i])];
      Picture(g, hdr', heads[i := To(o)], T, L[i := [o] + L[i]]) && NoFreePairs(g, hdr', T) && Allocated(hdr', T) == Allocated(hdr, T)
  {
    hide Size, Tiles, Headers, Lists, NoFreePairs, OtherHalf;
    EnlistKeeps(g, hdr, heads, T, L, o, i);
    TilesAligned(g, T);
    var hdr' := hdr[o := hdr[o].(next := heads[i])];
    assert SameFlags(hdr, hdr');
    FlagsPairs(g, hdr, T, hdr', o);
    MergingEnds(g, hdr', T, o, i);
    assert Allocated(hdr', T) == Allocated(hdr, T);
  }

  lemma FlagsPairs(g: Geometry, hdr: Memory, T: Tiling, hdr': Memory, o: nat)
    requires NoFreePairsBut(g, hdr, T, o) && SameFlags(hdr, hdr')
    ensures NoFreePairsBut(g, hdr', T, o) && forall x :: IsFree(hdr, T, x) <==> IsFree(hdr', T, x)
  {
  }

  lemma PairsBut(g: Geometry, hdr: Memory, T: Tiling, o: nat)
    requires NoFreePairs(g, hdr, T)
    ensures NoFreePairsBut(g, hdr, T, o)
  {
  }

  // split's assignments, in order
  lemma SplitCode(hdr: Memory, hdr': Memory, o: nat, h: nat)
    requires o in hdr && h > 0
    requires hdr' == hdr[o + h := Header(true, h, Null)][o := hdr[o].(next := To(o + h), size := h)]
    ensures hdr' == SplitHeaders(hdr, o, h) && hdr'[o].size == h
  {
  }

  lemma SearchEnds(g: Geometry, hdr: Memory, heads: seq<Ptr>, T: Tiling, L: seq<seq<nat>>, i: nat, o: nat, need: nat, A: Tiling)
    requires Searching(g, hdr, heads, T, L, i, o, need, A)
    requires Size(g, i) / 2 <= need || Size(g, i) / 2 < Size(g, 0)
    ensures |heads| == |L| == g.levels && i < g.levels && Spells(hdr, heads[i], L[i]) && NoRepeats(L[i])
    ensures need <= Size(g, i) && (Size(g, i) == Size(g, 0) || Size(g, i) <= 2 * need)
  {
    hide Size, Tiles, Headers, Spells, NoFreePairsBut;
    ListFacts(g, hdr, heads, T, L, i);
    if i > 0 {
      SizeFacts(g, i - 1, i - 1);
      SizeFacts(g, 0, i - 1);
    }
  }

  // ---------------------------------------------------------------------------------------
  // Where the hypothesis on free is needed
  // ---------------------------------------------------------------------------------------

  // One round of the merge loop, from remove's two results on: the picture can be restored by some
  // tiling and some lists exactly if the free buddy has the size of the block.
  lemma RoundKeepsPictureIff(g: Geometry, hdr: Memory, heads: seq<Ptr>, T: Tiling, L: seq<seq<nat>>, o: nat, c: nat, i: nat,
                             hdr1: Memory, h1: Ptr, hdr2: Memory, h2: Ptr)
    requires Picture(g, hdr, heads, T, L) && IsFree(hdr, T, o) && T[o] == i < g.levels - 1 && |heads| == g.levels == |L|
    requires c == OtherHalf(o, Size(g, i)) && IsFree(hdr, T, c)
    requires OnlyNextOf(hdr, hdr1, L[i]) && Spells(hdr1, h1, Without(L[i], o))
    requires OnlyNextOf(hdr1, hdr2, Without(L[i], o)) && Spells(hdr2, h2, Without(Without(L[i], o), c))
    ensures (exists T', L' :: Picture(g, RoundMemory(hdr2, heads, Lower(o, c), i), RoundHeads(heads, h2, Lower(o, c), i), T', L')) <==> T[c] == i
  {
    hide Size, Tiles, OtherHalf, Spells, Headers, Lists, Wrecked;
    var P := Lower(o, c);
    ListFacts(g, hdr, heads, T, L, i);
    BothNext(hdr, hdr1, hdr2, L[i], o);
    if T[c] == i {
      RoundRestores(g, hdr, heads, T, L, o, c, i, hdr1, h1, hdr2, h2);
    } else {
      BuddyIsLive(g, T, o);
      PictureThreads(g, hdr, heads, T, L, c);
      var w := FirstWreck(g, hdr, heads, T, L, o, c, i, hdr2, h2);
      forall T', L' ensures !Picture(g, RoundMemory(hdr2, heads, P, i), RoundHeads(heads, h2, P, i), T', L') {
        WreckHasNoPicture(g, RoundMemory(hdr2, heads, P, i), RoundHeads(heads, h2, P, i), T, L, P, i + 1, w, T', L');
      }
    }
  }

  lemma RoundRestores(g: Geometry, hdr: Memory, heads: seq<Ptr>, T: Tiling, L: seq<seq<nat>>, o: nat, c: nat, i: nat,
                      hdr1: Memory, h1: Ptr, hdr2: Memory, h2: Ptr)
    requires Picture(g, hdr, heads, T, L) && IsFree(hdr, T, o) && T[o] == i < g.levels - 1 && |heads| == g.levels == |L|
    requires c == OtherHalf(o, Size(g, i)) && IsFree(hdr, T, c) && T[c] == i
    requires OnlyNextOf(hdr, hdr1, L[i]) && Spells(hdr1, h1, Without(L[i], o))
    requires OnlyNextOf(hdr1, hdr2, Without(L[i], o)) && Spells(hdr2, h2, Without(Without(L[i], o), c))
    ensures exists T', L' :: Picture(g, RoundMemory(hdr2, heads, Lower(o, c), i), RoundHeads(heads, h2, Lower(o, c), i), T', L')
  {
    hide Size, Tiles, OtherHalf, Spells, Headers, Lists, Picture, Without;
    var P, L1 := Lower(o, c), L[i := Without(L[i], o)];
    PictureTiles(g, hdr, heads, T, L);
    TilesAligned(g, T);
    PairFacts(g, T, o, c, i);
    RoundUnlists(g, hdr, heads, T, L, o, i, true, hdr1, h1);
    NextFlags(hdr, hdr1, L[i]);
    var heads1, L2 := heads[i := h1], L1[i := Without(L1[i], c)];
    RoundUnlistsBuddy(g, hdr1, heads1, T, L1, o, c, i, hdr2, h2);
    MergeKeeps(g, hdr2, heads1[i := h2], T, L2, o, c, i);
    var T', hdr3 := MergeAt(T, o, c, i), Merged(hdr2, P);
    EnlistKeeps(g, hdr3, heads1[i := h2], T', L2, P, i + 1);
    assert heads1[i := h2] == heads[i := h2];
    assert Picture(g, RoundMemory(hdr2, heads, P, i), RoundHeads(heads, h2, P, i), T', L2[i + 1 := [P] + L2[i + 1]]);
  }

  lemma PictureTiles(g: Geometry, hdr: Memory, heads: seq<Ptr>, T: Tiling, L: seq<seq<nat>>)
    requires Picture(g, hdr, heads, T, L)
    ensures Tiles(g, T)
  {
  }

  // A region of 128 bytes in blocks of 32 and more.
  const SMALL := Geometry(5, 3, 1)

  lemma SmallSizes()
    ensures Size(SMALL, 0) == 32 && Size(SMALL, 1) == 64 && Size(SMALL, 2) == 128 && Total(SMALL) == 128
  {
  }

  // The blocks in use are the ones of 32 bytes at the offsets q.
  ghost predicate InUse(hdr: Memory, T: Tiling, q: set<nat>) {
    Allocated(hdr, T) == map o | o in q :: 0
  }

  // While one of the four offsets is not in use some list has a block.
  lemma SomethingFree(hdr: Memory, heads: seq<Ptr>, T: Tiling, L: seq<seq<nat>>, q: set<nat>, x: nat)
    requires Picture(SMALL, hdr, heads, T, L) && InUse(hdr, T, q) && x in {0, 32, 64, 96} && x !in q
    requires forall o :: o in q ==> o in {0, 32, 64, 96}
    ensures exists i :: 0 <= i < |L| == SMALL.levels && L[i] != [] && 16 <= Size(SMALL, i)
  {
    SmallSizes();
    hide Size, Total, Spells, Aligned, Disjoint, Headers;
    assert Covered(SMALL, T, x);
    var s :| InBlock(SMALL, T, x, s);
    TilesAligned(SMALL, T);
    StartAligned(SMALL, T, s);
    assert s !in Allocated(hdr, T);
    ListFacts(SMALL, hdr, heads, T, L, T[s]);
    assert s in hdr by { PictureHeaders(SMALL, hdr, heads, T, L, s); }
    assert s in L[T[s]];
    SizeFacts(SMALL, 0, T[s]);
  }

  lemma PictureHeaders(g: Geometry, hdr: Memory, heads: seq<Ptr>, T: Tiling, L: seq<seq<nat>>, s: nat)
    requires Picture(g, hdr, heads, T, L) && s in T
    ensures s in hdr
  {
  }

  // A block of the smallest size that is allocated in SMALL is at one of the four offsets.
  lemma SmallOffset(T: Tiling, o: nat)
    requires Aligned(SMALL, T) && o in T && T[o] == 0
    ensures o in {0, 32, 64, 96}
  {
    SmallSizes();
    hide Size, Total;
    StartAligned(SMALL, T, o);
  }

  // One more block of the smallest size.
  method TakeSmall(b: Buddy, ghost q: set<nat>, ghost x: nat) returns (ghost o: nat)
    requires b.g == SMALL && b.Valid() && InUse(b.hdr, b.T, q) && x in {0, 32, 64, 96} && x !in q
    requires forall o :: o in q ==> o in {0, 32, 64, 96}
    modifies b
    ensures b.Valid() && o !in q && o in {0, 32, 64, 96} && InUse(b.hdr, b.T, q + {o})
  {
    hide Size, Picture, NoFreePairs;
    SomethingFree(b.hdr, b.heads, b.T, b.L, q, x);
    var a := b.Alloc(0);
    o := a - HEADER;
    SmallSizes();
    LevelZero(b.T[o]);
    PictureTiles(SMALL, b.hdr, b.heads, b.T, b.L);
    TilesAligned(SMALL, b.T);
    SmallOffset(b.T, o);
  }

  lemma LevelZero(i: nat)
    requires Size(SMALL, i) == Size(SMALL, 0) || Size(SMALL, i) <= 2 * 16
    ensures i == 0
  {
    PowOrder(5, 5 + i);
  }

  // The buddy of a block in use is of the smallest size too.
  lemma SmallBuddy(b: Buddy, q: set<nat>, o: nat, c: nat)
    requires b.g == SMALL && b.Valid() && InUse(b.hdr, b.T, q) && o in q && c == OtherHalf(o, 32)
    ensures o in Allocated(b.hdr, b.T) && o in b.T && b.T[o] == 0
    ensures c in b.T && b.T[c] == 0 && (IsFree(b.hdr, b.T, c) <==> c !in q)
  {
    SmallSizes();
    hide Size, NoFreePairs, Tiles, OtherHalf;
    assert o in Allocated(b.hdr, b.T);
    BuddyIsLive(SMALL, b.T, o);
    PictureHeaders(SMALL, b.hdr, b.heads, b.T, b.L, c);
    assert c in Allocated(b.hdr, b.T) <==> c in q;
  }

  lemma Halves()
    ensures OtherHalf(0, 32) == 32 && OtherHalf(32, 32) == 0 && OtherHalf(64, 32) == 96 && OtherHalf(96, 32) == 64 && OtherHalf(0, 64) == 64
  {
  }

  // All four blocks are allocated.
  method TakeAll() returns (b: Buddy)
    ensures b.g == SMALL && b.Valid() && InUse(b.hdr, b.T, {0, 32, 64, 96}) && fresh(b)
  {
    hide Size, Picture, NoFreePairs;
    b := new Buddy(SMALL);
    assert InUse(b.hdr, b.T, {});
    ghost var o0 := TakeSmall(b, {}, 0);
    assert {} + {o0} == {o0};
    ghost var o1 := TakeSmall(b, {o0}, if o0 == 0 then 32 else 0);
    assert {o0} + {o1} == {o0, o1};
    ghost var o2 := TakeSmall(b, {o0, o1}, if 0 !in {o0, o1} then 0 else if 32 !in {o0, o1} then 32 else 64);
    ghost var q := {o0, o1, o2};
    assert {o0, o1} + {o2} == q;
    ghost var o3 := TakeSmall(b, q, if 0 !in q then 0 else if 32 !in q then 32 else if 64 !in q then 64 else 96);
    assert q + {o3} == {0, 32, 64, 96};
  }

  // A block whose buddy is in use is freed.
  method FreeSmall(b: Buddy, o: nat, ghost q: set<nat>)
    requires b.g == SMALL && b.Valid() && InUse(b.hdr, b.T, q) && o in q && OtherHalf(o, 32) in q
    modifies b
    ensures b.Valid() && InUse(b.hdr, b.T, q - {o})
  {
    hide Size, Picture, NoFreePairs, OtherHalf, MeetsEqual;
    SmallSizes();
    SmallBuddy(b, q, o, OtherHalf(o, 32));
    b.Free(o + HEADER);
  }

  // A run from a new region after which free swallows a block: four blocks are allocated and the
  // inner two freed.  Freeing the block at 0 merges it with the one at 32; the buddy of the result, at
  // 64, is free but smaller, and merging with it takes in the block at 96, which is in use.
  method FreeSwallows() returns (b: Buddy, ghost hdr0: Memory, ghost T0: Tiling)
    ensures b.g == SMALL && Tiles(SMALL, T0) && Headers(SMALL, hdr0, T0) && InUse(hdr0, T0, {0, 96})
    ensures !MeetsEqual(SMALL, hdr0, T0, 0, 1) && 64 < 96 < 64 + Size(SMALL, 1)
    ensures forall T', L' :: !Picture(b.g, b.hdr, b.heads, T', L')
  {
    hide Size, NoFreePairs, OtherHalf, MeetsEqual, Tiles, Headers, Lists, InUse;
    SmallSizes();
    Halves();
    b := TakeAll();
    FreeSmall(b, 32, {0, 32, 64, 96});
    assert {0, 32, 64, 96} - {32} == {0, 64, 96};
    FreeSmall(b, 64, {0, 64, 96});
    assert {0, 64, 96} - {64} == {0, 96};
    SmallBuddy(b, {0, 96}, 0, 32);
    SmallBuddy(b, {0, 96}, 96, 64);
    hdr0, T0 := b.hdr, b.T;
    MeetsSmaller(hdr0, T0);
    b.Free(0 + HEADER);
  }

  lemma MeetsSmaller(hdr: Memory, T: Tiling)
    requires IsFree(hdr, T, 64) && T[64] == 0
    ensures !MeetsEqual(SMALL, hdr, T, 0, 1)
  {
    SmallSizes();
    Halves();
  }
}
