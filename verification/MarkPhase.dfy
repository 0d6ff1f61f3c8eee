/**
 The mark phase of recovery: a worklist computes everything reachable from the roots, treating any
 byte offset of a marked block as a possible position-independent pointer.
 */
module MarkPhase {

  import opened Pptr

  type Addr = Word

  // The superblock region [lo, hi), the size of the block an address belongs to, the 8-byte word at
  // each byte address and the non-null roots.  Nothing of it changes while marking.
  datatype Heap = Heap(lo: Addr, hi: Addr, blockSize: Addr -> nat, word: Addr -> Word, roots: seq<Addr>)

  predicate InRange(h: Heap, a: Addr) {
    h.lo <= a < h.hi
  }

  function ByteAddr(a: Addr, i: nat): Addr {
    (a + i) % WORDS
  }

  // The pointer that the word i bytes behind a holds, null if it is none.
  function Content(h: Heap, a: Addr, i: nat): Addr {
    FromOff(h.word(ByteAddr(a, i)), ByteAddr(a, i))
  }

  ghost predicate PointsTo(h: Heap, a: Addr, c: Addr) {
    exists i: nat :: i < h.blockSize(a) && Content(h, a, i) == c && c != NULL && InRange(h, c)
  }

  // A pointer in range written at any byte position of a block is one that the block holds ...
  lemma WrittenIsFound(h: Heap, a: Addr, i: nat, c: Addr)
    requires i < h.blockSize(a) && c != NULL && InRange(h, c) && InReach(c, (a + i) % WORDS)
    requires h.word((a + i) % WORDS) == ToOff(c, (a + i) % WORDS)
    ensures PointsTo(h, a, c)
  {
    RoundTrip(c, (a + i) % WORDS);
    assert Content(h, a, i) == c;
  }

  // The word at a byte position of a block is the one for the pointer c written there.
  predicate WrittenAt(h: Heap, a: Addr, i: nat, c: Addr) {
    i < h.blockSize(a) && InReach(c, (a + i) % WORDS) && h.word((a + i) % WORDS) == ToOff(c, (a + i) % WORDS)
  }

  predicate CanonicalAt(h: Heap, a: Addr, i: nat) {
    Canonical(h.word((a + i) % WORDS), (a + i) % WORDS)
  }

  // ... and it holds no others if each of its words is canonical where it stands.
  lemma HoldsWhatIsWritten(h: Heap, a: Addr, c: Addr)
    requires c != NULL && InRange(h, c) && forall i: nat :: i < h.blockSize(a) ==> CanonicalAt(h, a, i)
    ensures PointsTo(h, a, c) <==> exists i: nat :: WrittenAt(h, a, i, c)
  {
    if PointsTo(h, a, c) {
      var i: nat :| i < h.blockSize(a) && Content(h, a, i) == c;
      assert CanonicalAt(h, a, i);
      FoundIsWritten(h, a, i, c);
    }
    if i: nat :| WrittenAt(h, a, i, c) { WrittenIsFound(h, a, i, c); }
  }

  lemma FoundIsWritten(h: Heap, a: Addr, i: nat, c: Addr)
    requires i < h.blockSize(a) && Content(h, a, i) == c && CanonicalAt(h, a, i)
    ensures WrittenAt(h, a, i, c)
  {
    hide ToOff, FromOff, InReach, Canonical;
    var q: Word := (a + i) % WORDS;
    CanonicalIffWritten(h.word(q), q);
    var v: Word :| InReach(v, q) && h.word(q) == ToOff(v, q);
    RoundTrip(v, q);
  }

  predicate IsRoot(h: Heap, a: Addr) {
    a in h.roots && InRange(h, a)
  }

  // Contains the roots in range and all that its members point to.
  ghost predicate Closed(h: Heap, S: set<Addr>) {
    && (forall a :: IsRoot(h, a) ==> a in S)
    && (forall a, c :: a in S && PointsTo(h, a, c) ==> c in S)
  }

  // Whatever pointer in range is written in a block of a closed set, its target is in the set.
  lemma ClosedUnderWritten(h: Heap, S: set<Addr>, a: Addr, i: nat, c: Addr)
    requires Closed(h, S) && a in S && WrittenAt(h, a, i, c) && c != NULL && InRange(h, c)
    ensures c in S
  {
    WrittenIsFound(h, a, i, c);
  }

  // A path of pointers from a root in range.
  ghost predicate Path(h: Heap, p: seq<Addr>) {
    p != [] && IsRoot(h, p[0]) && forall i :: 0 < i < |p| ==> PointsTo(h, p[i - 1], p[i])
  }

  ghost predicate Reachable(h: Heap, a: Addr) {
    exists p :: Path(h, p) && p[|p| - 1] == a
  }

  lemma {:induction false} PathStaysInClosed(h: Heap, S: set<Addr>, p: seq<Addr>, i: nat)
    requires Closed(h, S) && Path(h, p) && i < |p|
    ensures p[i] in S
  {
    if i > 0 { PathStaysInClosed(h, S, p, i - 1); }
  }

  lemma Extend(h: Heap, a: Addr, c: Addr)
    requires Reachable(h, a) && PointsTo(h, a, c)
    ensures Reachable(h, c)
  {
    var p :| Path(h, p) && p[|p| - 1] == a;
    assert Path(h, p + [c]) && (p + [c])[|p|] == c;
  }

  // The least closed set is the set of reachable addresses.
  lemma LeastIsReachable(h: Heap, S: set<Addr>)
    requires Closed(h, S) && forall a :: a in S ==> Reachable(h, a)
    ensures forall a :: a in S <==> Reachable(h, a)
    ensures forall T :: Closed(h, T) ==> S <= T
  {
    forall a | Reachable(h, a) ensures a in S {
      var p :| Path(h, p) && p[|p| - 1] == a;
      PathStaysInClosed(h, S, p, |p| - 1);
    }
    forall T | Closed(h, T) ensures S <= T {
      forall a | a in S ensures a in T {
        var p :| Path(h, p) && p[|p| - 1] == a;
        PathStaysInClosed(h, T, p, |p| - 1);
      }
    }
  }

  function Range(h: Heap): set<Addr> {
    set a: Addr | h.lo <= a < h.hi && InRange(h, a)
  }

  class GarbageCollection {
    const h: Heap
    var marked: set<Addr>
    var toFilter: seq<Addr>
    // every push so far, in order
    ghost var pushed: seq<Addr>

    constructor (h: Heap)
      ensures this.h == h && marked == {} && toFilter == [] && pushed == [] && Valid()
    {
      this.h, marked, toFilter, pushed := h, {}, [], [];
    }

    ghost predicate Valid()
      reads this
    {
      && (forall a :: a in marked ==> InRange(h, a) && Reachable(h, a))
      && (forall a :: a in marked <==> a in pushed)
      && (forall i, j :: 0 <= i < j < |pushed| ==> pushed[i] != pushed[j])
      && (forall i :: 0 <= i < |toFilter| ==> toFilter[i] in marked)
    }

    // The addresses still to look at.
    predicate Waiting(a: Addr)
      reads this
    {
      a in toFilter
    }

    method MarkFunc(ptr: Addr)
      requires Valid() && (InRange(h, ptr) ==> Reachable(h, ptr))
      modifies this
      ensures Valid() && (InRange(h, ptr) ==> ptr in marked) && old(marked) <= marked <= old(marked) + {ptr}
      ensures if marked == old(marked) then toFilter == old(toFilter) && pushed == old(pushed)
              else toFilter == old(toFilter) + [ptr] && pushed == old(pushed) + [ptr] && ptr !in old(marked)
    {
      if !InRange(h, ptr) { return; }
      if ptr !in marked {
        marked := marked + {ptr};
        toFilter := toFilter + [ptr];
        pushed := pushed + [ptr];
      }
    }

    // Every byte offset of the block is tried.
    method FilterFunc(ptr: Addr)
      requires Valid() && ptr in marked
      modifies this
      ensures Valid() && old(marked) <= marked && old(pushed) <= pushed && old(toFilter) <= toFilter
      ensures forall c :: PointsTo(h, ptr, c) ==> c in marked
      ensures forall a :: a in marked && a !in old(marked) ==> Waiting(a)
      ensures marked == old(marked) ==> toFilter == old(toFilter)
    {
      var sz, i := h.blockSize(ptr), 0;
      while i < sz
        invariant i <= sz && Valid() && old(marked) <= marked && old(pushed) <= pushed && old(toFilter) <= toFilter
        invariant forall j: nat :: j < i && Content(h, ptr, j) != NULL && InRange(h, Content(h, ptr, j)) ==> Content(h, ptr, j) in marked
        invariant forall a :: a in marked && a !in old(marked) ==> Waiting(a)
        invariant marked == old(marked) ==> toFilter == old(toFilter)
      {
        var curr := Content(h, ptr, i);
        if curr != NULL {
          if InRange(h, curr) {
            assert PointsTo(h, ptr, curr);
            Extend(h, ptr, curr);
          }
          MarkFunc(curr);
        }
        i := i + 1;
      }
    }

    // What is marked and no longer waiting has had its pointers marked.
    ghost predicate Filtered()
      reads this
    {
      forall a, c :: a in marked && !Waiting(a) && PointsTo(h, a, c) ==> c in marked
    }

    ghost predicate RootsMarked()
      reads this
    {
      forall a :: IsRoot(h, a) ==> a in marked
    }

    // Lines 879-883
    method MarkRoots()
      requires Valid() && marked == {} && toFilter == [] && pushed == []
      modifies this
      ensures Valid() && Filtered() && RootsMarked()
    {
      var i := 0;
      while i < |h.roots|
        invariant i <= |h.roots| && Valid()
        invariant forall a :: a in marked ==> Waiting(a)
        invariant forall j :: 0 <= j < i && InRange(h, h.roots[j]) ==> h.roots[j] in marked
      {
        if InRange(h, h.roots[i]) { assert Path(h, [h.roots[i]]) && [h.roots[i]][0] == h.roots[i]; }
        MarkFunc(h.roots[i]);
        i := i + 1;
      }
    }

    // One round of the loop at lines 884-891
    method FilterTop()
      requires Valid() && Filtered() && toFilter != []
      modifies this
      ensures Valid() && Filtered() && old(marked) <= marked && (old(RootsMarked()) ==> RootsMarked())
      ensures |toFilter| < |old(toFilter)| || marked != old(marked)
    {
      var node := toFilter[|toFilter| - 1];
      toFilter := toFilter[..|toFilter| - 1];
      ghost var rest := toFilter;
      FilterFunc(node);
      forall a, c | a in marked && !Waiting(a) && PointsTo(h, a, c) ensures c in marked {
        PrefixMember(rest, toFilter, a);
      }
    }

    // Lines 879-891.  The stack is empty at the end, the marked set is the least closed one, and each
    // marked address was pushed exactly once.
    method Mark()
      requires Valid() && marked == {} && toFilter == [] && pushed == []
      modifies this
      ensures Valid() && toFilter == []
      ensures Closed(h, marked) && forall T :: Closed(h, T) ==> marked <= T
      ensures forall a :: a in marked <==> Reachable(h, a)
      ensures multiset(pushed) == multiset(marked)
    {
      hide Valid, Filtered, RootsMarked, Closed, Reachable, Range;
      MarkRoots();
      while toFilter != []
        invariant Valid() && Filtered() && RootsMarked()
        decreases |Range(h) - marked|, |toFilter|
      {
        ghost var before := marked;
        FilterTop();
        StaysInRange();
        Shrinks(h, before, marked);
      }
      Complete();
    }

    lemma StaysInRange()
      requires Valid()
      ensures marked <= Range(h)
    {
    }

    lemma Complete()
      requires Valid() && Filtered() && RootsMarked() && toFilter == []
      ensures Closed(h, marked) && forall T :: Closed(h, T) ==> marked <= T
      ensures forall a :: a in marked <==> Reachable(h, a)
      ensures multiset(pushed) == multiset(marked)
    {
      LeastIsReachable(h, marked);
      OncePerAddress(pushed, marked);
    }
  }

  lemma PrefixMember(p: seq<Addr>, q: seq<Addr>, a: Addr)
    requires p <= q
    ensures a in p ==> a in q
  {
  }

  lemma Shrinks(h: Heap, before: set<Addr>, after: set<Addr>)
    requires before <= after
    ensures |Range(h) - after| <= |Range(h) - before|
    ensures after <= Range(h) && before != after ==> |Range(h) - after| < |Range(h) - before|
  {
    var R := Range(h);
    assert R - before == (R - after) + ((after - before) * R);
    if after <= R && before != after {
      var a :| a in after - before;
      assert a in (after - before) * R;
    }
  }

  lemma {:induction false} OncePerAddress(p: seq<Addr>, S: set<Addr>)
    requires forall a :: a in S <==> a in p
    requires forall i, j :: 0 <= i < j < |p| ==> p[i] != p[j]
    ensures multiset(p) == multiset(S)
  {
    if p == [] {
      assert S == {};
    } else {
      OncePerAddress(p[1..], S - {p[0]});
      assert p == [p[0]] + p[1..];
      assert S == (S - {p[0]}) + {p[0]};
    }
  }
}
