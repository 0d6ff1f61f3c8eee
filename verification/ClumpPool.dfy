/**
 The clump allocator of N-Store: a pool of clumps with boundary tags, allocated by rotating first
 fit, split when the rest is worth it and coalesced with free neighbours on every free.

 Offsets are from the start of the file.  A clump's size word holds its size, a multiple of 64, and
 its state in the low six bits; the terminator at `end` has size word 0.
 */
module ClumpPool {

  import opened Common

  const START: nat := 16384
  const CHUNK: nat := 64
  const FREE: nat := 0
  const RESERVED: nat := 1
  const ACTIVE: nat := 2

  datatype Clump = Clump(word: nat, prevsize: nat)

  type Memory = map<nat, Clump>

  function Sz(c: Clump): nat {
    c.word - c.word % CHUNK
  }

  function StateOf(c: Clump): nat {
    c.word % CHUNK
  }

  predicate IsFree(c: Clump) {
    StateOf(c) == FREE
  }

  predicate Multiple(n: nat) {
    n % CHUNK == 0
  }

  lemma Words(sz: nat, state: nat, prev: nat)
    requires Multiple(sz) && state < CHUNK
    ensures var c := Clump(sz + state, prev); Sz(c) == sz && StateOf(c) == state
  {
  }

  // ---------------------------------------------------------------------------------------
  // Segments of the pool
  // ---------------------------------------------------------------------------------------

  // A boundary: its offset, and the size and freeness of the clump before it.
  datatype Edge = Edge(off: nat, prev: nat, prevFree: bool)

  // The boundary behind the clump at o.
  function After(mem: Memory, o: nat): Edge
    requires o in mem
  {
    Edge(o + Sz(mem[o]), Sz(mem[o]), IsFree(mem[o]))
  }

  // The clump at edge a: of positive size, linked back to the clump before, and not free if that one is.
  predicate Fits(mem: Memory, a: Edge, o: nat) {
    && o == a.off && o in mem && Sz(mem[o]) > 0 && Multiple(o) && mem[o].prevsize == a.prev
    && !(a.prevFree && IsFree(mem[o]))
  }

  // The clumps q lead from edge a to edge z.
  predicate Seg(mem: Memory, a: Edge, q: seq<nat>, z: Edge)
    decreases |q|
  {
    if q == [] then a == z else Fits(mem, a, q[0]) && Seg(mem, After(mem, q[0]), q[1..], z)
  }

  lemma {:induction false} SegFrame(mem: Memory, mem': Memory, a: Edge, q: seq<nat>, z: Edge)
    requires Seg(mem, a, q, z) && forall o :: o in q && o in mem ==> o in mem' && mem'[o] == mem[o]
    ensures Seg(mem', a, q, z)
    decreases |q|
  {
    if q != [] {
      assert q[0] in q && forall o :: o in q[1..] ==> o in q;
      SegFrame(mem, mem', After(mem, q[0]), q[1..], z);
    }
  }

  // Clumps of a segment lie in order between its edges.
  lemma {:induction false} SegRange(mem: Memory, a: Edge, q: seq<nat>, z: Edge)
    requires Seg(mem, a, q, z)
    ensures a.off <= z.off && (q != [] ==> a.off < z.off && q[0] == a.off)
    ensures forall o :: o in q ==> o in mem && Sz(mem[o]) > 0 && a.off <= o && o + Sz(mem[o]) <= z.off
    ensures forall i, j :: 0 <= i < j < |q| ==> q[i] in mem && q[i] + Sz(mem[q[i]]) <= q[j]
    decreases |q|
  {
    if q != [] {
      SegRange(mem, After(mem, q[0]), q[1..], z);
      assert q == [q[0]] + q[1..];
    }
  }

  lemma {:induction false} SegJoin(mem: Memory, a: Edge, p: seq<nat>, m: Edge, q: seq<nat>, z: Edge)
    requires Seg(mem, a, p, m) && Seg(mem, m, q, z)
    ensures Seg(mem, a, p + q, z)
    decreases |p|
  {
    if p == [] {
      assert p + q == q;
    } else {
      SegJoin(mem, After(mem, p[0]), p[1..], m, q, z);
      assert (p + q)[0] == p[0] && (p + q)[1..] == p[1..] + q;
    }
  }

  lemma {:induction false} SegSplit(mem: Memory, a: Edge, p: seq<nat>, q: seq<nat>, z: Edge) returns (m: Edge)
    requires Seg(mem, a, p + q, z)
    ensures Seg(mem, a, p, m) && Seg(mem, m, q, z)
    decreases |p|
  {
    if p == [] {
      assert p + q == q;
      m := a;
    } else {
      assert (p + q)[0] == p[0] && (p + q)[1..] == p[1..] + q;
      m := SegSplit(mem, After(mem, p[0]), p[1..], q, z);
    }
  }

  lemma SegOne(mem: Memory, a: Edge, o: nat)
    requires Fits(mem, a, o)
    ensures Seg(mem, a, [o], After(mem, o))
  {
  }

  // --- the pool -----------------------------------------------------------------------------------------

  const BEGIN := Edge(START, 0, false)

  // The clumps q tile the pool up to the terminator at z.off, which is linked back unless the pool is fresh.
  ghost predicate Pool(mem: Memory, q: seq<nat>, z: Edge) {
    && q != [] && Seg(mem, BEGIN, q, z) && Multiple(z.off)
    && z.off in mem && mem[z.off].word == 0 && (mem[z.off].prevsize == z.prev || FreshPool(mem, q))
  }

  // One free clump and a terminator whose back link is not set yet.
  predicate FreshPool(mem: Memory, q: seq<nat>) {
    |q| == 1 && q[0] in mem && IsFree(mem[q[0]])
  }

  // What is handed out: offset to size and state.
  function Used(mem: Memory, q: seq<nat>): map<nat, (nat, nat)> {
    map o | o in q && InUse(mem, q, o) :: (Sz(mem[o]), StateOf(mem[o]))
  }

  predicate InUse(mem: Memory, q: seq<nat>, o: nat) {
    o in q && o in mem && !IsFree(mem[o])
  }

  ghost predicate SameUse(mem: Memory, q: seq<nat>, mem': Memory, q': seq<nat>, o: nat) {
    (InUse(mem, q, o) <==> InUse(mem', q', o)) && (InUse(mem, q, o) ==> mem'[o].word == mem[o].word)
  }

  lemma UsedMore(mem: Memory, q: seq<nat>, mem': Memory, q': seq<nat>, c: nat)
    requires forall o: nat :: o != c ==> SameUse(mem, q, mem', q', o)
    requires InUse(mem', q', c)
    ensures Used(mem', q') == Used(mem, q)[c := (Sz(mem'[c]), StateOf(mem'[c]))]
  {
    var U, U' := Used(mem, q)[c := (Sz(mem'[c]), StateOf(mem'[c]))], Used(mem', q');
    forall o: nat ensures (o in U <==> o in U') && (o in U ==> U'[o] == U[o]) {
      assert o != c ==> SameUse(mem, q, mem', q', o);
    }
    assert U == U';
  }

  lemma UsedLess(mem: Memory, q: seq<nat>, mem': Memory, q': seq<nat>, c: nat)
    requires forall o: nat :: o != c ==> SameUse(mem, q, mem', q', o)
    requires !InUse(mem', q', c)
    ensures Used(mem', q') == Used(mem, q) - {c}
  {
    var U, U' := Used(mem, q) - {c}, Used(mem', q');
    forall o: nat ensures (o in U <==> o in U') && (o in U ==> U'[o] == U[o]) {
      assert o != c ==> SameUse(mem, q, mem', q', o);
    }
    assert U == U';
  }

  // --- replacing part of the pool --------------------------------------------------------------------

  function Relinked(mem: Memory, n: nat, prev: nat): Memory {
    if n in mem then mem[n := mem[n].(prevsize := prev)] else mem
  }

  // The rest of the pool behind a boundary whose clump got a new size and back link.
  lemma RelinkRest(mem: Memory, mem': Memory, m: Edge, post: seq<nat>, z: Edge, m': Edge)
    requires Seg(mem, m, post, z) && m'.off == m.off && m.off in mem && m.off in mem'
    requires mem'[m.off] == mem[m.off].(prevsize := m'.prev)
    requires forall o :: o in post && o != m.off ==> o in mem' && o in mem && mem'[o] == mem[o]
    requires post != [] ==> !(m'.prevFree && IsFree(mem[m.off]))
    ensures Seg(mem', m', post, if post == [] then m' else z)
  {
    if post != [] {
      SegRange(mem, m, post, z);
      assert post == [post[0]] + post[1..];
      assert forall o :: o in post[1..] ==> o in post && o != m.off;
      SegFrame(mem, mem', After(mem, post[0]), post[1..], z);
    }
  }

  // mid is replaced by mid' over the same bytes; only the back link behind it follows suit.
  ghost predicate Replaces(mem: Memory, mem': Memory, pre: seq<nat>, mid: seq<nat>, post: seq<nat>, z: Edge,
                           m1: Edge, m2: Edge, mid': seq<nat>, m2': Edge) {
    && Seg(mem, BEGIN, pre, m1) && Seg(mem, m1, mid, m2) && Seg(mem, m2, post, z)
    && Seg(mem', m1, mid', m2') && m2'.off == m2.off && mid' != []
    && m2.off in mem && m2.off in mem' && mem'[m2.off] == mem[m2.off].(prevsize := m2'.prev)
    && (forall o :: (o in pre || o in post || o == z.off) && o != m2.off ==> o in mem && o in mem' && mem'[o] == mem[o])
    && (post != [] ==> !(m2'.prevFree && IsFree(mem[m2.off])))
  }

  lemma ReplaceKeeps(mem: Memory, mem': Memory, pre: seq<nat>, mid: seq<nat>, post: seq<nat>, z: Edge,
                     m1: Edge, m2: Edge, mid': seq<nat>, m2': Edge)
    requires Replaces(mem, mem', pre, mid, post, z, m1, m2, mid', m2') && Multiple(z.off)
    requires z.off in mem && mem[z.off].word == 0 && (post != [] ==> mem[z.off].prevsize == z.prev)
    ensures Pool(mem', pre + mid' + post, if post == [] then m2' else z)
  {
    hide Fits;
    var z' := if post == [] then m2' else z;
    SegRange(mem, BEGIN, pre, m1);
    SegRange(mem, m1, mid, m2);
    SegRange(mem, m2, post, z);
    assert m2.off !in pre;
    SegFrame(mem, mem', BEGIN, pre, m1);
    RelinkRest(mem, mem', m2, post, z, m2');
    SegJoin(mem', BEGIN, pre, m1, mid', m2');
    SegJoin(mem', BEGIN, pre + mid', m2', post, z');
  }

  // --- reserve -----------------------------------------------------------------------------------------

  // The clump size for a request: the least multiple of 64, from 128 on, with room for it and a header.
  function Need(size: nat): (n: nat)
    ensures Multiple(n) && n >= size + CHUNK && n >= 2 * CHUNK
    ensures forall m: nat :: Multiple(m) && m >= size + CHUNK && m >= 2 * CHUNK ==> n <= m
  {
    if size <= 64 then 128 else 64 + (size + 63) / 64 * 64
  }

  function SplitMem(mem: Memory, c: nat, need: nat): Memory
    requires c in mem && Sz(mem[c]) >= need
  {
    var rest := Sz(mem[c]) - need;
    Relinked(mem[c + need := Clump(rest + FREE, need)], c + need + rest, rest)[c := mem[c].(word := need + RESERVED)]
  }

  function WholeMem(mem: Memory, c: nat): Memory
    requires c in mem
  {
    Relinked(mem[c := mem[c].(word := Sz(mem[c]) + RESERVED)], c + Sz(mem[c]), Sz(mem[c]))
  }

  function TakenMem(mem: Memory, c: nat, need: nat): Memory
    requires c in mem && Sz(mem[c]) >= need
  {
    if Sz(mem[c]) - need >= 2 * CHUNK then SplitMem(mem, c, need) else WholeMem(mem, c)
  }

  function TakenSize(mem: Memory, c: nat, need: nat): nat
    requires c in mem && Sz(mem[c]) >= need
  {
    if Sz(mem[c]) - need >= 2 * CHUNK then need else Sz(mem[c])
  }

  function TakenSeq(mem: Memory, q: seq<nat>, k: nat, need: nat): seq<nat>
    requires k < |q| && q[k] in mem && Sz(mem[q[k]]) >= need
  {
    if Sz(mem[q[k]]) - need >= 2 * CHUNK then q[..k] + [q[k], q[k] + need] + q[k + 1..] else q
  }

  // The pool around its k-th clump.
  lemma Around(mem: Memory, q: seq<nat>, z: Edge, k: nat) returns (m1: Edge)
    requires Pool(mem, q, z) && k < |q|
    ensures q[k] in mem && Fits(mem, m1, q[k]) && Seg(mem, BEGIN, q[..k], m1) && Seg(mem, m1, [q[k]], After(mem, q[k]))
    ensures Seg(mem, After(mem, q[k]), q[k + 1..], z) && q == q[..k] + [q[k]] + q[k + 1..]
    ensures After(mem, q[k]).off == (if k + 1 < |q| then q[k + 1] else z.off) && After(mem, q[k]).off in mem
    ensures k == 0 ==> m1 == BEGIN
    ensures k > 0 ==> q[k - 1] in mem && m1 == After(mem, q[k - 1])
  {
    hide Seg, Fits;
    Slices(q, k);
    m1 := SegSplit(mem, BEGIN, q[..k], q[k..], z);
    FitsAt(mem, m1, q[k..], z);
    SegOne(mem, m1, q[k]);
    if k + 1 < |q| { FitsAt(mem, After(mem, q[k]), q[k + 1..], z); } else { SegNone(mem, After(mem, q[k]), z); }
    LastEdge(mem, q, k, m1);
  }

  lemma Slices(q: seq<nat>, k: nat)
    requires k < |q|
    ensures q == q[..k] + q[k..] && q == q[..k] + [q[k]] + q[k + 1..]
    ensures q[k..][0] == q[k] && q[k..][1..] == q[k + 1..] && (k + 1 < |q| ==> q[k + 1..][0] == q[k + 1])
    ensures k + 1 == |q| ==> q[k + 1..] == []
  {
  }

  lemma SegNone(mem: Memory, a: Edge, z: Edge)
    requires Seg(mem, a, [], z)
    ensures a == z
  {
  }

  lemma FitsAt(mem: Memory, a: Edge, q: seq<nat>, z: Edge)
    requires Seg(mem, a, q, z) && q != []
    ensures Fits(mem, a, q[0]) && q[0] == a.off && q[0] in mem && Seg(mem, After(mem, q[0]), q[1..], z)
  {
  }

  lemma LastEdge(mem: Memory, q: seq<nat>, k: nat, m: Edge)
    requires k <= |q| && Seg(mem, BEGIN, q[..k], m)
    ensures k == 0 ==> m == BEGIN
    ensures k > 0 ==> q[k - 1] in mem && m == After(mem, q[k - 1])
  {
    hide Fits;
    if k > 0 {
      assert q[..k] == q[..k - 1] + [q[k - 1]];
      var e := SegSplit(mem, BEGIN, q[..k - 1], [q[k - 1]], m);
      assert [q[k - 1]][1..] == [];
      FitsAt(mem, e, [q[k - 1]], m);
    }
  }

  // Behind a clump of a segment nothing of the segment lies inside it.
  lemma Outside(mem: Memory, pre: seq<nat>, m1: Edge, c: nat, post: seq<nat>, z: Edge, x: nat)
    requires Seg(mem, BEGIN, pre, m1) && Fits(mem, m1, c) && Seg(mem, After(mem, c), post, z)
    requires c <= x < c + Sz(mem[c])
    ensures x !in pre && x !in post && x < z.off
  {
    SegRange(mem, BEGIN, pre, m1);
    SegRange(mem, After(mem, c), post, z);
  }

  lemma WholeSize(c: Clump)
    ensures Multiple(Sz(c))
  {
  }

  lemma TakenFits(mem: Memory, m1: Edge, c: nat, need: nat)
    requires Fits(mem, m1, c) && IsFree(mem[c]) && Sz(mem[c]) >= need && Multiple(need) && need >= 2 * CHUNK
    requires c + Sz(mem[c]) in mem
    ensures var mem', n, size := TakenMem(mem, c, need), c + Sz(mem[c]), TakenSize(mem, c, need);
      var mid' := if Sz(mem[c]) - need >= 2 * CHUNK then [c, c + need] else [c];
      var m2' := Edge(n, if Sz(mem[c]) - need >= 2 * CHUNK then Sz(mem[c]) - need else Sz(mem[c]), Sz(mem[c]) - need >= 2 * CHUNK);
      && Seg(mem', m1, mid', m2') && n in mem' && mem'[n] == mem[n].(prevsize := m2'.prev)
      && c in mem' && Sz(mem'[c]) == size && StateOf(mem'[c]) == RESERVED
      && (Sz(mem[c]) - need >= 2 * CHUNK ==> c + need in mem' && IsFree(mem'[c + need]))
      && (forall o :: o in mem && o != c && o != c + need && o != n ==> o in mem' && mem'[o] == mem[o])
  {
    hide Sz, StateOf;
    var sz := Sz(mem[c]);
    WholeSize(mem[c]);
    Words(need, RESERVED, mem[c].prevsize);
    Words(sz, RESERVED, mem[c].prevsize);
    if sz - need >= 2 * CHUNK {
      var mem' := SplitMem(mem, c, need);
      Words(sz - need, FREE, need);
      SegOne(mem', After(mem', c), c + need);
      assert [c, c + need][1..] == [c + need];
    } else {
      SegOne(WholeMem(mem, c), m1, c);
    }
  }

  lemma TakeReplaces(mem: Memory, q: seq<nat>, z: Edge, k: nat, need: nat) returns (z': Edge)
    requires Pool(mem, q, z) && k < |q| && q[k] in mem && IsFree(mem[q[k]]) && Sz(mem[q[k]]) >= need && Multiple(need) && need >= 2 * CHUNK
    ensures Pool(TakenMem(mem, q[k], need), TakenSeq(mem, q, k, need), z') && z'.off == z.off
  {
    hide Seg, Sz, TakenMem;
    var c: nat, pre, post := q[k], q[..k], q[k + 1..];
    var m1 := Around(mem, q, z, k);
    TakenFits(mem, m1, c, need);
    var mem' := TakenMem(mem, c, need);
    var split := Sz(mem[c]) - need >= 2 * CHUNK;
    var mid' := if split then [c, c + need] else [c];
    var m2' := Edge(c + Sz(mem[c]), if split then Sz(mem[c]) - need else Sz(mem[c]), split);
    forall o | o in pre || o in post || o == z.off ensures o in mem {
      InPool(mem, q, z, k, o);
    }
    Outside(mem, pre, m1, c, post, z, c);
    if need < Sz(mem[c]) { Outside(mem, pre, m1, c, post, z, c + need); }
    if post != [] { FitsAt(mem, After(mem, c), post, z); }
    ReplaceKeeps(mem, mem', pre, [c], post, z, m1, After(mem, c), mid', m2');
    z' := if post == [] then m2' else z;
    if post == [] { SegNone(mem, After(mem, c), z); }
    assert pre + [c] + post == q;
  }

  lemma InPool(mem: Memory, q: seq<nat>, z: Edge, k: nat, o: nat)
    requires Pool(mem, q, z) && k < |q| && (o in q[..k] || o in q[k + 1..] || o == z.off)
    ensures o in mem
  {
    SegRange(mem, BEGIN, q, z);
    Slices(q, k);
  }

  lemma TakeUse(mem: Memory, pre: seq<nat>, m1: Edge, c: nat, post: seq<nat>, z: Edge, need: nat, q': seq<nat>, o: nat)
    requires Seg(mem, BEGIN, pre, m1) && Fits(mem, m1, c) && Seg(mem, After(mem, c), post, z) && IsFree(mem[c])
    requires Sz(mem[c]) >= need && Multiple(need) && need >= 2 * CHUNK && c + Sz(mem[c]) in mem && o != c
    requires q' == pre + (if Sz(mem[c]) - need >= 2 * CHUNK then [c, c + need] else [c]) + post
    ensures SameUse(mem, pre + [c] + post, TakenMem(mem, c, need), q', o)
  {
    hide Seg, TakenMem, Sz;
    TakenFits(mem, m1, c, need);
    var split := Sz(mem[c]) - need >= 2 * CHUNK;
    if need < Sz(mem[c]) { Outside(mem, pre, m1, c, post, z, c + need); }
    SegLive(mem, BEGIN, pre, m1);
    SegLive(mem, After(mem, c), post, z);
    assert o in q' <==> o in pre || o in post || (split && o == c + need);
    assert o in pre + [c] + post <==> o in pre || o in post;
  }

  lemma SegLive(mem: Memory, a: Edge, q: seq<nat>, z: Edge)
    requires Seg(mem, a, q, z)
    ensures forall o :: o in q ==> o in mem
  {
    SegRange(mem, a, q, z);
  }

  lemma TakeUsed(mem: Memory, q: seq<nat>, z: Edge, k: nat, need: nat)
    requires Pool(mem, q, z) && k < |q| && q[k] in mem && IsFree(mem[q[k]]) && Sz(mem[q[k]]) >= need && Multiple(need) && need >= 2 * CHUNK
    ensures Used(TakenMem(mem, q[k], need), TakenSeq(mem, q, k, need)) == Used(mem, q)[q[k] := (TakenSize(mem, q[k], need), RESERVED)]
    ensures q[k] !in Used(mem, q)
  {
    hide Seg, TakenMem, TakenSize, Fits, SameUse, Pool;
    var c: nat, pre, post := q[k], q[..k], q[k + 1..];
    var m1 := Around(mem, q, z, k);
    TakenFits(mem, m1, c, need);
    var mem', q' := TakenMem(mem, c, need), TakenSeq(mem, q, k, need);
    assert q' == pre + (if Sz(mem[c]) - need >= 2 * CHUNK then [c, c + need] else [c]) + post;
    forall o: nat | o != c ensures SameUse(mem, q, mem', q', o) { TakeUse(mem, pre, m1, c, post, z, need, q', o); }
    assert c in q';
    UsedMore(mem, q, mem', q', c);
  }

  // --- free -----------------------------------------------------------------------------------------------

  // The bytes from lo to hi become one free clump.
  function MergedMem(mem: Memory, lo: nat, hi: nat): Memory
    requires lo in mem && lo <= hi
  {
    Relinked(mem[lo := mem[lo].(word := hi - lo + FREE)], hi, hi - lo)
  }

  function Bound(q: seq<nat>, z: Edge, k: nat): nat
  {
    if k < |q| then q[k] else z.off
  }

  function MergedSeq(q: seq<nat>, k1: nat, k2: nat): seq<nat>
    requires k1 < k2 <= |q|
  {
    q[..k1] + [q[k1]] + q[k2..]
  }

  lemma MergedFits(mem: Memory, m1: Edge, lo: nat, hi: nat)
    requires lo in mem && hi in mem && lo < hi && Multiple(lo) && Multiple(hi) && m1.off == lo && mem[lo].prevsize == m1.prev && !m1.prevFree
    ensures var mem' := MergedMem(mem, lo, hi);
      && Seg(mem', m1, [lo], Edge(hi, hi - lo, true)) && mem'[hi] == mem[hi].(prevsize := hi - lo)
      && lo in mem' && Sz(mem'[lo]) == hi - lo && IsFree(mem'[lo]) && (forall o :: o in mem && o != lo && o != hi ==> o in mem' && mem'[o] == mem[o])
  {
  }

  // The pool cut before positions k1 and k2.
  lemma Cut(mem: Memory, q: seq<nat>, z: Edge, k1: nat, k2: nat) returns (m1: Edge, m2: Edge)
    requires Pool(mem, q, z) && k1 < k2 <= |q|
    ensures Seg(mem, BEGIN, q[..k1], m1) && Seg(mem, m1, q[k1..k2], m2) && Seg(mem, m2, q[k2..], z)
    ensures Fits(mem, m1, q[k1]) && q[k1] < m2.off == Bound(q, z, k2) && m2.off in mem && Multiple(m2.off)
    ensures m1.prevFree ==> k1 > 0 && q[k1 - 1] in mem && IsFree(mem[q[k1 - 1]])
  {
    hide Seg;
    CutSlices(q, k1, k2);
    m1 := SegSplit(mem, BEGIN, q[..k1], q[k1..], z);
    m2 := SegSplit(mem, m1, q[k1..k2], q[k2..], z);
    FitsAt(mem, m1, q[k1..k2], m2);
    SegRange(mem, m1, q[k1..k2], m2);
    if k2 < |q| { FitsAt(mem, m2, q[k2..], z); } else { SegNone(mem, m2, z); }
    LastEdge(mem, q, k1, m1);
  }

  lemma CutSlices(q: seq<nat>, k1: nat, k2: nat)
    requires k1 < k2 <= |q|
    ensures q == q[..k1] + q[k1..] && q[k1..] == q[k1..k2] + q[k2..] && q[k1..k2] != [] && q[k1..k2][0] == q[k1]
    ensures k2 < |q| ==> q[k2..] != [] && q[k2..][0] == q[k2]
    ensures k2 == |q| ==> q[k2..] == []
  {
  }

  // Everything outside a cut lies outside its bytes.
  lemma CutOutside(mem: Memory, q: seq<nat>, z: Edge, k1: nat, k2: nat, m1: Edge, m2: Edge, x: nat)
    requires Pool(mem, q, z) && k1 < k2 <= |q|
    requires Seg(mem, BEGIN, q[..k1], m1) && Seg(mem, m1, q[k1..k2], m2) && Seg(mem, m2, q[k2..], z)
    ensures x in q[..k1] ==> x in mem && x < m1.off
    ensures x in q[k2..] ==> x in mem && x >= m2.off
    ensures z.off in mem && z.off >= m2.off
  {
    SegRange(mem, BEGIN, q[..k1], m1);
    SegRange(mem, m2, q[k2..], z);
  }

  lemma MergeKeeps(mem: Memory, q: seq<nat>, z: Edge, k1: nat, k2: nat) returns (z': Edge)
    requires Pool(mem, q, z) && k1 < k2 <= |q|
    requires k1 > 0 && q[k1 - 1] in mem ==> !IsFree(mem[q[k1 - 1]])
    requires k2 < |q| && q[k2] in mem ==> !IsFree(mem[q[k2]])
    ensures q[k1] in mem && q[k1] < Bound(q, z, k2)
    ensures Pool(MergedMem(mem, q[k1], Bound(q, z, k2)), MergedSeq(q, k1, k2), z') && z'.off == z.off
  {
    hide Seg;
    var lo, hi, pre, post := q[k1], Bound(q, z, k2), q[..k1], q[k2..];
    var m1, m2 := Cut(mem, q, z, k1, k2);
    MergedFits(mem, m1, lo, hi);
    var mem', m2' := MergedMem(mem, lo, hi), Edge(hi, hi - lo, true);
    forall o | (o in pre || o in post || o == z.off) && o != hi ensures o in mem && o in mem' && mem'[o] == mem[o] {
      CutOutside(mem, q, z, k1, k2, m1, m2, o);
    }
    assert |q| > 1 || post == [];
    ReplaceKeeps(mem, mem', pre, q[k1..k2], post, z, m1, m2, [lo], m2');
    z' := if post == [] then m2' else z;
    if post == [] { SegNone(mem, m2, z); }
  }

  lemma MergeUse(mem: Memory, q: seq<nat>, z: Edge, k1: nat, k2: nat, c: nat, o: nat)
    requires Pool(mem, q, z) && k1 < k2 <= |q| && o != c
    requires forall j :: k1 <= j < k2 && q[j] != c ==> q[j] in mem && IsFree(mem[q[j]])
    ensures q[k1] in mem && q[k1] < Bound(q, z, k2)
    ensures SameUse(mem, q, MergedMem(mem, q[k1], Bound(q, z, k2)), MergedSeq(q, k1, k2), o)
  {
    hide Seg, Pool, Sz;
    var m1, m2 := Cut(mem, q, z, k1, k2);
    CutOutside(mem, q, z, k1, k2, m1, m2, o);
    var lo, hi := q[k1], Bound(q, z, k2);
    MergedWords(mem, lo, hi, o);
    CutMembers(q, k1, k2, o);
    hide MergedMem;
  }

  lemma MergedWords(mem: Memory, lo: nat, hi: nat, o: nat)
    requires lo in mem && hi in mem && lo < hi && Multiple(lo) && Multiple(hi)
    ensures var mem' := MergedMem(mem, lo, hi);
      && lo in mem' && IsFree(mem'[lo]) && (o != lo ==> (o in mem <==> o in mem') && (o in mem ==> mem'[o].word == mem[o].word))
  {
  }

  lemma CutMembers(q: seq<nat>, k1: nat, k2: nat, o: nat)
    requires k1 < k2 <= |q|
    ensures o in MergedSeq(q, k1, k2) <==> o in q[..k1] || o == q[k1] || o in q[k2..]
    ensures o in q <==> o in q[..k1] || (exists j :: k1 <= j < k2 && q[j] == o) || o in q[k2..]
  {
  }

  // --- the allocator -----------------------------------------------------------------------------------

  // A free clump large enough.
  predicate Good(mem: Memory, o: nat, need: nat) {
    o in mem && need <= Sz(mem[o]) && IsFree(mem[o])
  }

  // Rotating first fit: k is the first good clump from the cursor on, or else from the start.
  predicate NextFit(mem: Memory, q: seq<nat>, cursor: Option<nat>, need: nat, k: nat) {
    && k < |q| && Good(mem, q[k], need)
    && exists k0 {:trigger q[k0]} :: 0 <= k0 < |q| && q[k0] == (if cursor.Some? then cursor.value else START) &&
         if k0 <= k then NoneGood(mem, q, need, k0, k) else NoneGood(mem, q, need, k0, |q|) && NoneGood(mem, q, need, 0, k)
  }

  predicate NoneGood(mem: Memory, q: seq<nat>, need: nat, lo: nat, hi: nat) {
    forall j :: lo <= j < hi && j < |q| ==> !Good(mem, q[j], need)
  }

  class Allocator {
    const end: nat
    var mem: Memory
    // prev_clp
    var cursor: Option<nat>
    ghost var q: seq<nat>
    ghost var z: Edge

    ghost predicate Valid()
      reads this
    {
      Pool(mem, q, z) && z.off == end && (cursor.Some? ==> cursor.value in q)
    }

    // A new pool: one free clump, and the terminator, in a file of zeros.
    constructor (end: nat)
      requires end > START && Multiple(end)
      ensures this.end == end && Valid() && Used(mem, q) == map[] && q == [START]
    {
      this.end := end;
      mem := map[START := Clump(end - START, 0), end := Clump(0, 0)];
      cursor, q, z := None, [START], Edge(end, end - START, true);
      new;
      SegOne(mem, BEGIN, START);
    }

    // The loop at lines 291-356, from a clump boundary to the terminator
    method Scan(from: nat, need: nat, ghost k0: nat) returns (found: bool, clp: nat, ghost k: nat)
      requires Pool(mem, q, z) && k0 < |q| && q[k0] == from && need > 0
      ensures found ==> k0 <= k < |q| && q[k] == clp && Good(mem, clp, need) && NoneGood(mem, q, need, k0, k)
      ensures !found ==> NoneGood(mem, q, need, k0, |q|)
    {
      hide Seg, Pool, Sz;
      clp, k := from, k0;
      ghost var m := Around(mem, q, z, k);
      while mem[clp].word != 0
        invariant k0 <= k <= |q| && clp == (if k < |q| then q[k] else z.off) && clp in mem
        invariant forall j :: k0 <= j < k ==> !Good(mem, q[j], need)
        decreases |q| - k
      {
        AtClump(mem, q, z, k);
        var sz := Sz(mem[clp]);
        if need <= sz && IsFree(mem[clp]) { return true, clp, k; }
        m := Around(mem, q, z, k);
        clp, k := clp + sz, k + 1;
      }
      AtEnd(mem, q, z, k);
      found := false;
    }

    // pmemalloc_reserve.  It fails only if no free clump anywhere is large enough, wherever the cursor
    // stands; otherwise it hands out a new clump with room for the request behind its header, the k-th.
    method Reserve(size: nat) returns (ptr: Option<nat>, ghost k: nat)
      requires Valid()
      modifies this
      ensures Valid()
      ensures ptr == None <==> forall o :: o in old(q) ==> !Good(old(mem), o, Need(size))
      ensures ptr == None ==> mem == old(mem) && q == old(q)
      ensures ptr.Some? ==>
        && ptr.value >= CHUNK && var o := ptr.value - CHUNK;
           && o in q && o in mem && o !in Used(old(mem), old(q))
           && size <= Sz(mem[o]) - CHUNK && Need(size) <= Sz(mem[o]) < Need(size) + 2 * CHUNK
           && Used(mem, q) == Used(old(mem), old(q))[o := (Sz(mem[o]), RESERVED)]
           && NextFit(old(mem), old(q), old(cursor), Need(size), k) && o == old(q)[k] && cursor == Some(o)
           && mem == TakenMem(old(mem), o, Need(size)) && q == TakenSeq(old(mem), old(q), k, Need(size))
    {
      hide Seg, Pool, Sz, Used, Good;
      var need := Need(size);
      var found, clp;
      ghost var k0: nat := 0;
      StartsAtStart(mem, q, z);
      if cursor.Some? {
        k0 :| 0 <= k0 < |q| && q[k0] == cursor.value;
        found, clp, k := Scan(cursor.value, need, k0);
      } else {
        found, clp, k := Scan(START, need, 0);
      }
      if !found {
        found, clp, k := Scan(START, need, 0);
      }
      if !found { return None, k; }
      assert NextFit(mem, q, cursor, need, k);
      Take(clp, need, k);
      ptr := Some(clp + CHUNK);
    }

    // Lines 299-349
    method Take(clp: nat, need: nat, ghost k: nat)
      requires Valid() && k < |q| && q[k] == clp && Good(mem, clp, need) && Multiple(need) && need >= 2 * CHUNK
      modifies this
      ensures Valid() && clp in q && clp in mem && clp !in Used(old(mem), old(q)) && need <= Sz(mem[clp]) < need + 2 * CHUNK
      ensures Used(mem, q) == Used(old(mem), old(q))[clp := (Sz(mem[clp]), RESERVED)]
      ensures mem == TakenMem(old(mem), clp, need) && q == TakenSeq(old(mem), old(q), k, need) && cursor == Some(clp)
    {
      hide Seg, Pool, Used, Fits;
      ghost var m := Around(mem, q, z, k);
      TakeUsed(mem, q, z, k, need);
      TakenFits(mem, m, clp, need);
      ghost var mem0 := mem;
      ghost var z' := TakeReplaces(mem, q, z, k, need);
      var sz := Sz(mem[clp]);
      var leftover := sz - need;
      if leftover >= 2 * CHUNK {
        mem := mem[clp + need := Clump(leftover + FREE, need)];
        var next := clp + need + leftover;
        mem := mem[next := mem[next].(prevsize := leftover)];
        mem := mem[clp := mem[clp].(word := need + RESERVED)];
      } else {
        mem := mem[clp := mem[clp].(word := sz + RESERVED)];
        var next := clp + sz;
        mem := mem[next := mem[next].(prevsize := sz)];
      }
      assert mem == TakenMem(mem0, clp, need);
      q, z := TakenSeq(mem0, q, k, need), z';
      cursor := Some(clp);
    }

    // pmemalloc_activate
    method Activate(ptr: nat)
      requires Valid() && ptr >= CHUNK && ptr - CHUNK in q && ptr - CHUNK in mem && StateOf(mem[ptr - CHUNK]) == RESERVED
      modifies this`mem
      ensures Valid() && ptr - CHUNK in mem && mem.Keys == old(mem).Keys
      ensures Used(mem, q) == Used(old(mem), q)[ptr - CHUNK := (Sz(old(mem)[ptr - CHUNK]), ACTIVE)]
      ensures forall o :: o in mem && o != ptr - CHUNK ==> mem[o] == old(mem)[o]
    {
      hide Seg, Used;
      var clp: nat := ptr - CHUNK;
      ActivateKeeps(mem, q, z, clp);
      var sz := Sz(mem[clp]);
      mem := mem[clp := mem[clp].(word := sz + ACTIVE)];
    }

    // pmemalloc_free.  The clump and its free neighbours become one free clump; no other clump that is
    // in use changes, no two free clumps are left side by side, and the cursor stays on a boundary.
    method Free(ptr: Option<nat>)
      requires Valid() && (ptr.Some? ==> ptr.value >= CHUNK && ptr.value - CHUNK in Used(mem, q))
      modifies this
      ensures Valid()
      ensures ptr == None ==> mem == old(mem) && q == old(q)
      ensures ptr.Some? ==> Used(mem, q) == Used(old(mem), old(q)) - {ptr.value - CHUNK}
    {
      hide Seg, Pool, Used, Sz, StateOf, MergedMem, MergedSeq;
      if ptr == None { return; }
      var clp: nat := ptr.value - CHUNK;
      ghost var k := PositionOf(mem, q, clp);
      FreeView(mem, q, z, k);
      ghost var mem0 := mem;
      var sz := Sz(mem[clp]);
      var lastfree := clp + sz;
      var last := IsFree(mem[lastfree]);
      var firstfree: nat := clp - mem[clp].prevsize;
      var first := firstfree != clp && IsFree(mem[firstfree]);
      ghost var k1, k2 := if first then k - 1 else k, if last && k + 1 < |q| then k + 2 else k + 1;
      ghost var lo, hi := q[k1], Bound(q, z, k2);
      var csize: nat;
      if first && last {
        var firstSz, lastSz := Sz(mem[firstfree]), Sz(mem[lastfree]);
        csize := firstSz + sz + lastSz;
        mem := mem[firstfree := mem[firstfree].(word := csize + FREE)];
        var next := lastfree + lastSz;
        mem := mem[next := mem[next].(prevsize := csize)];
        cursor := Some(firstfree);
      } else if first {
        csize := Sz(mem[firstfree]) + sz;
        mem := mem[firstfree := mem[firstfree].(word := csize + FREE)];
        mem := mem[lastfree := mem[lastfree].(prevsize := csize)];
        cursor := Some(firstfree);
      } else if last {
        var lastSz := Sz(mem[lastfree]);
        csize := sz + lastSz;
        mem := mem[clp := mem[clp].(word := csize + FREE)];
        var next := lastfree + lastSz;
        mem := mem[next := mem[next].(prevsize := csize)];
        cursor := Some(clp);
      } else {
        csize := sz;
        mem := mem[clp := mem[clp].(word := csize + FREE)];
      }
      FreeMem(mem0, mem, lo, hi, csize, first || last);
      FreeUsed(mem0, q, z, k, k1, k2);
      MergedHas(q, k1, k2);
      z := MergeKeeps(mem0, q, z, k1, k2);
      q := MergedSeq(q, k1, k2);
    }

    // pmemalloc_recover, in terms of the forward tiling alone: reserved clumps become free.
    method RecoverPass(ghost r: seq<nat>)
      requires Tiled(mem, START, r, end) && end in mem && mem[end].word == 0
      modifies this`mem
      ensures Tiled(mem, START, r, end) && mem == Unreserved(old(mem), r)
    {
      hide Tiled, Sz, Recovering;
      var clp := START;
      ghost var k, mem0 := 0, mem;
      RecoverStarts(mem, r, end);
      while mem[clp].word != 0
        invariant k <= |r| && clp == Stop(r, end, k) && clp in mem && Recovering(mem0, mem, r, end, k)
        decreases |r| - k
      {
        RecoverStep(mem0, mem, r, end, k);
        var sz := Sz(mem[clp]);
        if StateOf(mem[clp]) == RESERVED {
          mem := mem[clp := mem[clp].(word := sz + FREE)];
        }
        clp, k := clp + sz, k + 1;
      }
      RecoverEnds(mem0, mem, r, end, k);
    }

    // pmemalloc_coalesce: the forward tiling afterwards has the pieces of the old one with neighbouring
    // free pieces joined.  Back links are not rewritten.
    method CoalescePass(ghost r: seq<nat>) returns (ghost r': seq<nat>)
      requires Tiled(mem, START, r, end) && end in mem && mem[end].word == 0 && Multiple(end)
      modifies this`mem
      ensures Tiled(mem, START, r', end) && Pieces(mem, r') == Joined(Pieces(old(mem), r)) && OnlySizes(old(mem), mem)
      ensures end in mem && mem[end] == old(mem)[end]
    {
      hide Tiled, Sz, StateOf, Joining, Joined, Pieces, OnlySizes, Committed;
      var firstfree, lastfree, csize: nat, clp := None, None, 0, START;
      ghost var mem0, k, s, done: seq<nat> := mem, 0, 0, [];
      JoinStarts(mem, r, end);
      AtStop(mem0, mem, r, end, 0, 0, [], 0);
      while mem[clp].word != 0
        invariant k <= |r| && clp == Stop(r, end, k) && clp in mem && Joining(mem0, mem, r, end, k, s, done, csize)
        invariant s <= k && (firstfree.Some? <==> s < k) && (lastfree.Some? <==> s + 1 < k) && (s < k ==> firstfree == Some(r[s]))
        invariant mem0 == old(mem) && end in mem0 && mem0[end].word == 0
        decreases |r| - k
      {
        AtStop(mem0, mem, r, end, k, s, done, csize);
        var sz := Sz(mem[clp]);
        if IsFree(mem[clp]) {
          JoinFree(mem0, mem, r, end, k, s, done, csize);
          if firstfree == None { firstfree := Some(clp); } else { lastfree := Some(clp); }
          csize := csize + sz;
        } else {
          JoinFlush(mem0, mem, r, end, k, s, done, csize);
          if firstfree.Some? && lastfree.Some? {
            mem := Committed(mem, firstfree.value, csize);
          }
          done := if s < k then done + [r[s]] else done;
          JoinUsed(mem0, mem, r, end, k, done);
          done, s := done + [r[k]], k + 1;
          firstfree, lastfree, csize := None, None, 0;
        }
        k := k + 1;
        clp := clp + sz;
        AtStop(mem0, mem, r, end, k, s, done, csize);
      }
      AtStop(mem0, mem, r, end, k, s, done, csize);
      JoinFlush(mem0, mem, r, end, k, s, done, csize);
      if firstfree.Some? && lastfree.Some? {
        mem := Committed(mem, firstfree.value, csize);
      }
      r' := if s < k then done + [r[s]] else done;
      assert r[..k] == r;
    }

    // The two passes of pmemalloc_init on a pool that a crash left behind; prev_clp starts out null.
    // The pool is sound again, back links included, exactly if no two neighbouring clumps were free or
    // reserved, or if all clumps were.
    method Restart()
      requires Valid()
      modifies this
      ensures Tiled(mem, START, q, end) && Pieces(mem, q) == Joined(Pieces(Unreserved(old(mem), old(q)), old(q)))
      ensures (exists q', z' :: Pool(mem, q', z') && z'.off == end) <==> NoIdlePair(old(mem), old(q)) || AllIdle(old(mem), old(q))
      ensures NoIdlePair(old(mem), old(q)) || AllIdle(old(mem), old(q)) ==> Valid()
    {
      hide Pool, Tiled, Seg, Pieces, Joined, Unreserved, NoIdlePair, AllIdle, Sz, OnlySizes;
      ghost var mem0, q0 := mem, q;
      cursor := None;
      PoolPieces(mem, q, z);
      RecoverPass(q);
      assert mem == Unreserved(mem0, q) && end in mem && mem[end].word == 0 by { UnreservedOther(mem0, q, end); }
      ghost var mem1 := mem;
      q := CoalescePass(q0);
      RestartIff(mem0, q0, z, mem, q);
      if NoIdlePair(mem0, q0) || AllIdle(mem0, q0) {
        ghost var z' :| Pool(mem, q, z') && z'.off == end;
        z := z';
      }
    }
  }

  lemma PositionOf(mem: Memory, q: seq<nat>, o: nat) returns (k: nat)
    requires o in Used(mem, q)
    ensures k < |q| && q[k] == o && o in mem && !IsFree(mem[o])
  {
    k :| 0 <= k < |q| && q[k] == o;
  }

  lemma AtClump(mem: Memory, q: seq<nat>, z: Edge, k: nat)
    requires Pool(mem, q, z) && k <= |q| && (if k < |q| then q[k] else z.off) in mem && mem[if k < |q| then q[k] else z.off].word != 0
    ensures k < |q|
  {
  }

  lemma AtEnd(mem: Memory, q: seq<nat>, z: Edge, k: nat)
    requires Pool(mem, q, z) && k <= |q| && (if k < |q| then q[k] else z.off) in mem && mem[if k < |q| then q[k] else z.off].word == 0
    ensures k == |q|
  {
    hide Seg;
    if k < |q| { var m := Around(mem, q, z, k); }
  }

  lemma StartsAtStart(mem: Memory, q: seq<nat>, z: Edge)
    requires Pool(mem, q, z)
    ensures q != [] && q[0] == START
  {
  }

  // --- what a pool is, clump by clump -----------------------------------------------------------------

  function Total(mem: Memory, q: seq<nat>): nat
    requires forall o :: o in q ==> o in mem
  {
    if q == [] then 0 else Sz(mem[q[0]]) + Total(mem, q[1..])
  }

  lemma {:induction false} SegTotal(mem: Memory, a: Edge, q: seq<nat>, z: Edge)
    requires Seg(mem, a, q, z)
    ensures forall o :: o in q ==> o in mem
    ensures Total(mem, q) == z.off - a.off
    decreases |q|
  {
    SegRange(mem, a, q, z);
    if q != [] { SegTotal(mem, After(mem, q[0]), q[1..], z); }
  }

  // The clumps tile the pool, each is linked back to its predecessor, the terminator too once the pool
  // is no longer fresh, no two neighbours are free, and the bytes add up.
  lemma PoolIsTiled(mem: Memory, q: seq<nat>, z: Edge, k: nat)
    requires Pool(mem, q, z) && k < |q|
    ensures q[0] == START && q[k] in mem && Bound(q, z, k + 1) in mem && q[k] + Sz(mem[q[k]]) == Bound(q, z, k + 1)
    ensures k == 0 ==> mem[q[k]].prevsize == 0
    ensures k + 1 < |q| ==> mem[q[k + 1]].prevsize == Sz(mem[q[k]]) && !(IsFree(mem[q[k]]) && IsFree(mem[q[k + 1]]))
    ensures mem[z.off].word == 0 && (k + 1 == |q| && !FreshPool(mem, q) ==> mem[z.off].prevsize == Sz(mem[q[k]]))
    ensures (forall o :: o in q ==> o in mem) && Total(mem, q) == z.off - START
  {
    hide Seg, Sz;
    StartsAtStart(mem, q, z);
    var m := Around(mem, q, z, k);
    SegTotal(mem, BEGIN, q, z);
    if k + 1 < |q| { var m' := Around(mem, q, z, k + 1); } else { SegNone(mem, After(mem, q[k]), z); }
  }

  // Clumps do not overlap.
  lemma ClumpsDisjoint(mem: Memory, q: seq<nat>, z: Edge, i: nat, j: nat)
    requires Pool(mem, q, z) && i < j < |q|
    ensures q[i] in mem && q[j] in mem && q[i] + Sz(mem[q[i]]) <= q[j] && q[j] + Sz(mem[q[j]]) <= z.off
  {
    SegRange(mem, BEGIN, q, z);
    assert q[i] in q && q[j] in q;
  }

  lemma {:induction false} SegAlter(mem: Memory, a: Edge, q: seq<nat>, z: Edge, c: nat, w: nat)
    requires Seg(mem, a, q, z) && c in mem && !IsFree(mem[c]) && Sz(Clump(w, 0)) == Sz(mem[c]) && !IsFree(Clump(w, 0))
    ensures Seg(mem[c := mem[c].(word := w)], a, q, z)
    decreases |q|
  {
    if q != [] {
      var mem' := mem[c := mem[c].(word := w)];
      assert After(mem', q[0]) == After(mem, q[0]) by { hide Seg; }
      SegAlter(mem, After(mem, q[0]), q[1..], z, c, w);
    }
  }

  lemma ActivateKeeps(mem: Memory, q: seq<nat>, z: Edge, c: nat)
    requires Pool(mem, q, z) && c in q && c in mem && StateOf(mem[c]) == RESERVED
    ensures var mem' := mem[c := mem[c].(word := Sz(mem[c]) + ACTIVE)];
      Pool(mem', q, z) && Used(mem', q) == Used(mem, q)[c := (Sz(mem[c]), ACTIVE)]
  {
    hide Seg;
    var w := Sz(mem[c]) + ACTIVE;
    Words(Sz(mem[c]), ACTIVE, 0);
    Words(Sz(mem[c]), ACTIVE, mem[c].prevsize);
    SegAlter(mem, BEGIN, q, z, c, w);
    assert c != z.off;
    UsedMore(mem, q, mem[c := mem[c].(word := w)], q, c);
  }

  lemma MergedHas(q: seq<nat>, k1: nat, k2: nat)
    requires k1 < k2 <= |q|
    ensures q[k1] in MergedSeq(q, k1, k2) && (k2 == k1 + 1 ==> MergedSeq(q, k1, k2) == q)
  {
  }

  // What free finds before the clump at position k ...
  predicate Before(mem: Memory, q: seq<nat>, k: nat)
    requires k < |q| && q[k] in mem
  {
    var c := q[k];
    && mem[c].prevsize <= c && (k == 0 ==> mem[c].prevsize == 0)
    && (k > 0 ==> mem[c].prevsize > 0 && q[k - 1] in mem && c - mem[c].prevsize == q[k - 1] && Sz(mem[q[k - 1]]) == mem[c].prevsize)
    && (k > 1 && IsFree(mem[q[k - 1]]) ==> q[k - 2] in mem && !IsFree(mem[q[k - 2]]))
  }

  // ... and behind it.
  predicate Behind(mem: Memory, q: seq<nat>, z: Edge, k: nat)
    requires k < |q| && q[k] in mem
  {
    var c := q[k];
    var l := c + Sz(mem[c]);
    && l in mem && l == Bound(q, z, k + 1) && mem[l].prevsize == Sz(mem[c]) && Sz(mem[c]) > 0
    && (k + 1 == |q| ==> IsFree(mem[l]) && Sz(mem[l]) == 0)
    && (k + 1 < |q| && IsFree(mem[l]) ==> l + Sz(mem[l]) in mem && l + Sz(mem[l]) == Bound(q, z, k + 2))
    && (k + 2 < |q| && IsFree(mem[l]) ==> q[k + 2] in mem && !IsFree(mem[q[k + 2]]))
  }

  lemma FreePrev(mem: Memory, q: seq<nat>, z: Edge, k: nat)
    requires Pool(mem, q, z) && k < |q| && q[k] in mem
    ensures Before(mem, q, k)
  {
    hide Seg, Pool, Sz;
    var m := Around(mem, q, z, k);
    if k > 0 {
      var p := Around(mem, q, z, k - 1);
      if k > 1 { var p' := Around(mem, q, z, k - 2); }
    }
  }

  lemma FreeNext(mem: Memory, q: seq<nat>, z: Edge, k: nat)
    requires Pool(mem, q, z) && k < |q| && q[k] in mem && !IsFree(mem[q[k]])
    ensures Behind(mem, q, z, k)
  {
    hide Seg;
    var m := Around(mem, q, z, k);
    if k + 1 < |q| {
      var m' := Around(mem, q, z, k + 1);
      hide Pool, Sz;
      if k + 2 < |q| { var m'' := Around(mem, q, z, k + 2); }
    } else {
      SegNone(mem, After(mem, q[k]), z);
    }
  }

  lemma FreeView(mem: Memory, q: seq<nat>, z: Edge, k: nat)
    requires Pool(mem, q, z) && k < |q| && q[k] in mem && !IsFree(mem[q[k]])
    ensures Before(mem, q, k) && Behind(mem, q, z, k)
  {
    hide Seg, Pool, Sz, Before, Behind;
    FreePrev(mem, q, z, k);
    FreeNext(mem, q, z, k);
  }

  // The four cases write the same thing: one free clump from lo to hi.
  lemma FreeMem(mem: Memory, mem': Memory, lo: nat, hi: nat, csize: nat, linked: bool)
    requires lo in mem && hi in mem && lo < hi && csize == hi - lo
    requires if linked then mem' == mem[lo := mem[lo].(word := csize + FREE)][hi := mem[hi].(prevsize := csize)]
             else mem' == mem[lo := mem[lo].(word := csize + FREE)] && mem[hi].prevsize == csize
    ensures mem' == MergedMem(mem, lo, hi)
  {
  }

  lemma FreeUsed(mem: Memory, q: seq<nat>, z: Edge, k: nat, k1: nat, k2: nat)
    requires Pool(mem, q, z) && k1 <= k < k2 <= |q| && q[k] in mem
    requires forall j :: k1 <= j < k2 && j != k ==> q[j] in mem && IsFree(mem[q[j]])
    ensures q[k1] in mem && q[k1] < Bound(q, z, k2)
    ensures Used(MergedMem(mem, q[k1], Bound(q, z, k2)), MergedSeq(q, k1, k2)) == Used(mem, q) - {q[k]}
  {
    hide Seg, Pool, Sz, Fits, SameUse;
    var c: nat := q[k];
    var m1, m2 := Cut(mem, q, z, k1, k2);
    var mem', q' := MergedMem(mem, q[k1], Bound(q, z, k2)), MergedSeq(q, k1, k2);
    forall o: nat | o != c ensures SameUse(mem, q, mem', q', o) { MergeUse(mem, q, z, k1, k2, c, o); }
    assert !InUse(mem', q', c) by { FreedNotUsed(mem, q, z, k, k1, k2, m1, m2); }
    UsedLess(mem, q, mem', q', c);
  }

  lemma FreedNotUsed(mem: Memory, q: seq<nat>, z: Edge, k: nat, k1: nat, k2: nat, m1: Edge, m2: Edge)
    requires Pool(mem, q, z) && k1 <= k < k2 <= |q| && Fits(mem, m1, q[k1]) && q[k1] < m2.off == Bound(q, z, k2) && m2.off in mem && Multiple(m2.off)
    requires Seg(mem, BEGIN, q[..k1], m1) && Seg(mem, m1, q[k1..k2], m2) && Seg(mem, m2, q[k2..], z)
    ensures !InUse(MergedMem(mem, q[k1], Bound(q, z, k2)), MergedSeq(q, k1, k2), q[k])
  {
    hide Pool, Sz;
    var c: nat := q[k];
    MergedWords(mem, q[k1], Bound(q, z, k2), c);
    CutMembers(q, k1, k2, c);
    SegRange(mem, BEGIN, q[..k1], m1);
    SegRange(mem, m1, q[k1..k2], m2);
    SegRange(mem, m2, q[k2..], z);
    assert q[k1..k2][k - k1] == c;
    hide Seg;
  }

  // ---------------------------------------------------------------------------------------
  // The restart passes
  // ---------------------------------------------------------------------------------------

  // The forward tiling alone: back links and free neighbours are not looked at.
  predicate Tiled(mem: Memory, o: nat, q: seq<nat>, e: nat)
    decreases |q|
  {
    if q == [] then o == e
    else q[0] == o && o in mem && Sz(mem[o]) > 0 && Multiple(o) && Tiled(mem, o + Sz(mem[o]), q[1..], e)
  }

  lemma {:induction false} PoolIsForwardTiled(mem: Memory, a: Edge, q: seq<nat>, z: Edge)
    requires Seg(mem, a, q, z)
    ensures Tiled(mem, a.off, q, z.off)
    decreases |q|
  {
    if q != [] { PoolIsForwardTiled(mem, After(mem, q[0]), q[1..], z); }
  }

  lemma {:induction false} TiledFrame(mem: Memory, mem': Memory, o: nat, q: seq<nat>, e: nat)
    requires Tiled(mem, o, q, e) && forall x :: x in q && x in mem ==> x in mem' && Sz(mem'[x]) == Sz(mem[x])
    ensures Tiled(mem', o, q, e)
    decreases |q|
  {
    if q != [] {
      assert q[0] in q && forall x :: x in q[1..] ==> x in q;
      TiledFrame(mem, mem', o + Sz(mem[o]), q[1..], e);
    }
  }

  lemma {:induction false} TiledRange(mem: Memory, o: nat, q: seq<nat>, e: nat)
    requires Tiled(mem, o, q, e)
    ensures o <= e && forall x :: x in q ==> x in mem && o <= x && x + Sz(mem[x]) <= e && Sz(mem[x]) > 0
    ensures forall i, j :: 0 <= i < j < |q| ==> q[i] < q[j]
    decreases |q|
  {
    if q != [] {
      TiledRange(mem, o + Sz(mem[o]), q[1..], e);
      assert q == [q[0]] + q[1..];
    }
  }

  lemma {:induction false} TiledSnoc(mem: Memory, o: nat, q: seq<nat>, m: nat, c: nat, e: nat)
    requires Tiled(mem, o, q, m) && c == m && c in mem && Sz(mem[c]) > 0 && Multiple(c) && c + Sz(mem[c]) == e
    ensures Tiled(mem, o, q + [c], e)
    decreases |q|
  {
    if q == [] {
      assert q + [c] == [c] && [c][1..] == [];
    } else {
      TiledSnoc(mem, o + Sz(mem[o]), q[1..], m, c, e);
      assert (q + [c])[0] == q[0] && (q + [c])[1..] == q[1..] + [c];
    }
  }

  lemma {:induction false} TiledAt(mem: Memory, o: nat, q: seq<nat>, e: nat, k: nat)
    requires Tiled(mem, o, q, e) && k < |q|
    ensures q[k] in mem && Sz(mem[q[k]]) > 0 && Multiple(q[k]) && q[k] + Sz(mem[q[k]]) == if k + 1 < |q| then q[k + 1] else e
    decreases |q|
  {
    if k > 0 {
      TiledAt(mem, o + Sz(mem[o]), q[1..], e, k - 1);
    } else if |q| > 1 {
      assert q[1..][0] == q[1];
    } else {
      assert q[1..] == [];
    }
  }

  datatype Piece = Piece(off: nat, size: nat, state: nat)

  function PieceAt(mem: Memory, o: nat): Piece {
    if o in mem then Piece(o, Sz(mem[o]), StateOf(mem[o])) else Piece(o, 0, 0)
  }

  function Pieces(mem: Memory, q: seq<nat>): seq<Piece> {
    seq(|q|, i requires 0 <= i < |q| => PieceAt(mem, q[i]))
  }

  // A piece joins the last one of a sequence if both are free.
  function JoinMore(rest: seq<Piece>, p: Piece): seq<Piece> {
    if p.state == FREE && rest != [] && rest[|rest| - 1].state == FREE then
      rest[..|rest| - 1] + [Piece(rest[|rest| - 1].off, rest[|rest| - 1].size + p.size, FREE)]
    else rest + [p]
  }

  function Joined(ps: seq<Piece>): seq<Piece> {
    if ps == [] then [] else JoinMore(Joined(ps[..|ps| - 1]), ps[|ps| - 1])
  }

  function Bytes(ps: seq<Piece>): nat {
    if ps == [] then 0 else Bytes(ps[..|ps| - 1]) + ps[|ps| - 1].size
  }

  lemma BytesSnoc(ps: seq<Piece>, p: Piece)
    ensures Bytes(ps + [p]) == Bytes(ps) + p.size
  {
  }

  // Joining leaves no free neighbours, keeps the bytes and all pieces in use, and makes none.
  lemma {:induction false} JoinedFacts(ps: seq<Piece>)
    ensures forall i :: 0 <= i < |Joined(ps)| - 1 ==> !(Joined(ps)[i].state == FREE && Joined(ps)[i + 1].state == FREE)
    ensures Bytes(Joined(ps)) == Bytes(ps)
    ensures forall p: Piece :: p.state != FREE ==> (p in Joined(ps) <==> p in ps)
  {
    hide JoinMore;
    if ps != [] {
      var init, p := ps[..|ps| - 1], ps[|ps| - 1];
      JoinedFacts(init);
      assert ps == init + [p];
      BytesSnoc(init, p);
      JoinMoreFacts(Joined(init), p);
    }
  }

  lemma JoinMoreFacts(rest: seq<Piece>, p: Piece)
    requires forall i :: 0 <= i < |rest| - 1 ==> !(rest[i].state == FREE && rest[i + 1].state == FREE)
    ensures var js := JoinMore(rest, p);
      && (forall i :: 0 <= i < |js| - 1 ==> !(js[i].state == FREE && js[i + 1].state == FREE))
      && Bytes(js) == Bytes(rest) + p.size && (forall x: Piece :: x.state != FREE ==> (x in js <==> x in rest || x == p))
  {
    if p.state == FREE && rest != [] && rest[|rest| - 1].state == FREE {
      var front, l := rest[..|rest| - 1], rest[|rest| - 1];
      assert rest == front + [l];
      BytesSnoc(front, l);
      BytesSnoc(front, Piece(l.off, l.size + p.size, FREE));
    } else {
      BytesSnoc(rest, p);
    }
  }

  function Stop(q: seq<nat>, e: nat, k: nat): nat {
    if k < |q| then q[k] else e
  }

  // pmemalloc_coalesce in front of clump k: clumps before s are dealt with, as `done`; those from s on
  // are free and of csize bytes together, and nothing from s on has been written.
  ghost predicate Joining(mem0: Memory, mem: Memory, q: seq<nat>, e: nat, k: nat, s: nat, done: seq<nat>, csize: nat) {
    && Tiled(mem0, START, q, e) && s <= k <= |q| && Multiple(e) && Tiled(mem, START, done, Stop(q, e, s))
    && (forall j :: s <= j < k ==> q[j] in mem0 && IsFree(mem0[q[j]])) && csize == Stop(q, e, k) - Stop(q, e, s)
    && OnlySizes(mem0, mem) && (forall o :: o in mem0 && o >= Stop(q, e, s) ==> mem[o] == mem0[o])
    && Pieces(mem, done) + (if s < k then [Piece(q[s], csize, FREE)] else []) == Joined(Pieces(mem0, q[..k]))
    && (done != [] ==> done[|done| - 1] in mem && !IsFree(mem[done[|done| - 1]]))
  }

  // Back links are never written.
  ghost predicate OnlySizes(mem: Memory, mem': Memory) {
    mem'.Keys == mem.Keys && forall o {:trigger mem'[o]} :: o in mem ==> mem'[o].prevsize == mem[o].prevsize
  }

  function Committed(mem: Memory, o: nat, csize: nat): Memory
    requires o in mem
  {
    mem[o := mem[o].(word := csize + FREE)]
  }

  lemma JoinStarts(mem: Memory, q: seq<nat>, e: nat)
    requires Tiled(mem, START, q, e) && Multiple(e)
    ensures Joining(mem, mem, q, e, 0, 0, [], 0)
  {
  }

  lemma PiecesSnoc(mem: Memory, q: seq<nat>, k: nat)
    requires k < |q|
    ensures Pieces(mem, q[..k + 1]) == Pieces(mem, q[..k]) + [PieceAt(mem, q[k])]
  {
  }

  lemma JoinedSnoc(ps: seq<Piece>, p: Piece)
    ensures Joined(ps + [p]) == JoinMore(Joined(ps), p)
  {
    assert (ps + [p])[..|ps|] == ps;
  }

  // A free clump joins the pending run.
  lemma JoinFree(mem0: Memory, mem: Memory, q: seq<nat>, e: nat, k: nat, s: nat, done: seq<nat>, csize: nat)
    requires Joining(mem0, mem, q, e, k, s, done, csize) && k < |q| && q[k] in mem0 && IsFree(mem0[q[k]])
    ensures Joining(mem0, mem, q, e, k + 1, s, done, csize + Sz(mem0[q[k]]))
  {
    hide Tiled, Joined, Sz;
    TiledAt(mem0, START, q, e, k);
    PiecesSnoc(mem0, q, k);
    JoinedSnoc(Pieces(mem0, q[..k]), PieceAt(mem0, q[k]));
    var front, p := Pieces(mem, done), PieceAt(mem0, q[k]);
    var rest := Joined(Pieces(mem0, q[..k]));
    if s < k {
      assert rest == front + [Piece(q[s], csize, FREE)];
      assert rest[..|rest| - 1] == front;
    } else {
      assert rest == front;
    }
  }

  // The pending run becomes one clump.
  lemma JoinCommit(mem0: Memory, mem: Memory, q: seq<nat>, e: nat, k: nat, s: nat, done: seq<nat>, csize: nat)
    requires Joining(mem0, mem, q, e, k, s, done, csize) && s < k
    ensures q[s] in mem && Committed(mem, q[s], csize)[q[s]].prevsize == mem[q[s]].prevsize
    ensures var mem', done' := Committed(mem, q[s], csize), done + [q[s]];
      && Tiled(mem', START, done', Stop(q, e, k)) && Pieces(mem', done') == Joined(Pieces(mem0, q[..k])) && OnlySizes(mem0, mem')
      && (forall o :: o in mem0 && o >= Stop(q, e, k) ==> mem'[o] == mem0[o]) && (k == s + 1 ==> mem' == mem)
  {
    hide Joined, Tiled, Sz, Pieces, StateOf;
    RunBounds(mem0, q, e, s, k);
    var mem', done' := Committed(mem, q[s], csize), done + [q[s]];
    CommitTiles(mem, done, q[s], csize);
    if k == s + 1 { SameWord(mem0[q[s]], csize); }
  }

  // What the flush at the end of a run leaves, whether or not anything is written.
  lemma JoinFlush(mem0: Memory, mem: Memory, q: seq<nat>, e: nat, k: nat, s: nat, done: seq<nat>, csize: nat)
    requires Joining(mem0, mem, q, e, k, s, done, csize)
    ensures s <= k <= |q| && (s < k ==> q[s] in mem)
    ensures var mem', done' := if s + 1 < k then Committed(mem, q[s], csize) else mem, if s < k then done + [q[s]] else done;
      && Tiled(mem', START, done', Stop(q, e, k)) && Pieces(mem', done') == Joined(Pieces(mem0, q[..k])) && OnlySizes(mem0, mem')
      && (forall o :: o in mem0 && o >= Stop(q, e, k) ==> o in mem' && mem'[o] == mem0[o])
      && Tiled(mem0, START, q, e) && Multiple(e)
  {
    hide Tiled, Joined, Pieces, Committed, Sz;
    if s < k { JoinCommit(mem0, mem, q, e, k, s, done, csize); }
  }

  lemma AtStop(mem0: Memory, mem: Memory, q: seq<nat>, e: nat, k: nat, s: nat, done: seq<nat>, csize: nat)
    requires Joining(mem0, mem, q, e, k, s, done, csize) && e in mem0 && mem0[e].word == 0
    ensures k <= |q| && Stop(q, e, k) in mem0 && Stop(q, e, k) in mem && mem[Stop(q, e, k)] == mem0[Stop(q, e, k)]
    ensures mem[Stop(q, e, k)].word != 0 ==> k < |q| && q[k] + Sz(mem0[q[k]]) == Stop(q, e, k + 1)
    ensures mem[Stop(q, e, k)].word == 0 ==> k == |q|
    ensures k == 0 ==> Stop(q, e, k) == START
  {
    hide Joined, Pieces, Sz;
    if k < |q| {
      TiledAt(mem0, START, q, e, k);
      ZeroWord(mem0[q[k]]);
    }
    if s < k { RunBounds(mem0, q, e, s, k); }
  }

  lemma SameWord(c: Clump, csize: nat)
    requires IsFree(c) && csize == Sz(c)
    ensures c.(word := csize + FREE) == c
  {
  }

  lemma CommitTiles(mem: Memory, done: seq<nat>, o: nat, csize: nat)
    requires Tiled(mem, START, done, o) && o in mem && csize > 0 && Multiple(csize) && Multiple(o)
    ensures Tiled(Committed(mem, o, csize), START, done + [o], o + csize)
    ensures Pieces(Committed(mem, o, csize), done + [o]) == Pieces(mem, done) + [Piece(o, csize, FREE)]
  {
    hide Tiled;
    var mem' := Committed(mem, o, csize);
    TiledRange(mem, START, done, o);
    Words(csize, FREE, mem[o].prevsize);
    TiledFrame(mem, mem', START, done, o);
    TiledSnoc(mem', START, done, o, o, o + csize);
    forall i | 0 <= i < |done| ensures PieceAt(mem', done[i]) == PieceAt(mem, done[i]) { assert done[i] in done; }
    assert Pieces(mem', done + [o]) == Pieces(mem, done) + [Piece(o, csize, FREE)];
  }

  lemma RunBounds(mem: Memory, q: seq<nat>, e: nat, s: nat, k: nat)
    requires Tiled(mem, START, q, e) && s < k <= |q| && Multiple(e)
    ensures q[s] in mem && q[s] < Stop(q, e, k) && Multiple(q[s]) && Multiple(Stop(q, e, k)) && Multiple(Stop(q, e, k) - q[s])
    ensures k == s + 1 ==> Stop(q, e, k) - q[s] == Sz(mem[q[s]])
  {
    hide Tiled, Sz;
    TiledRange(mem, START, q, e);
    TiledAt(mem, START, q, e, s);
    if k < |q| { TiledAt(mem, START, q, e, k); } else { assert q[s] in q; }
  }

  // A clump in use ends the run and stays as it is.
  lemma JoinUsed(mem0: Memory, mem: Memory, q: seq<nat>, e: nat, k: nat, done: seq<nat>)
    requires Tiled(mem0, START, q, e) && Multiple(e) && k < |q| && q[k] in mem0 && !IsFree(mem0[q[k]])
    requires Tiled(mem, START, done, q[k]) && Pieces(mem, done) == Joined(Pieces(mem0, q[..k])) && OnlySizes(mem0, mem)
    requires forall o :: o in mem0 && o >= q[k] ==> o in mem && mem[o] == mem0[o]
    ensures Joining(mem0, mem, q, e, k + 1, k + 1, done + [q[k]], 0)
  {
    hide Joined, Sz;
    TiledAt(mem0, START, q, e, k);
    TiledSnoc(mem, START, done, q[k], q[k], Stop(q, e, k + 1));
    PiecesSnoc(mem0, q, k);
    JoinedSnoc(Pieces(mem0, q[..k]), PieceAt(mem0, q[k]));
    assert Pieces(mem, done + [q[k]]) == Pieces(mem, done) + [PieceAt(mem0, q[k])];
    hide Tiled;
  }

  // --- what a restart does to the back links --------------------------------------------------------------

  function EdgeOf(ps: seq<Piece>, e: nat, k: nat): nat {
    if k < |ps| then ps[k].off else e
  }

  // Every boundary, the terminator's too, is linked back to the piece before it.
  predicate LinkedAt(mem: Memory, ps: seq<Piece>, e: nat, k: nat)
    requires k <= |ps|
  {
    EdgeOf(ps, e, k) in mem && mem[EdgeOf(ps, e, k)].prevsize == if k == 0 then 0 else ps[k - 1].size
  }

  predicate PieceLinks(mem: Memory, ps: seq<Piece>, e: nat) {
    forall k {:trigger LinkedAt(mem, ps, e, k)} :: 0 <= k <= |ps| ==> LinkedAt(mem, ps, e, k)
  }

  predicate FreePair(ps: seq<Piece>, k: nat) {
    0 < k < |ps| && ps[k - 1].state == FREE && ps[k].state == FREE
  }

  predicate NoFreePair(ps: seq<Piece>) {
    forall k {:trigger FreePair(ps, k)} :: 0 < k < |ps| ==> !FreePair(ps, k)
  }

  predicate AllFree(ps: seq<Piece>) {
    forall p :: p in ps ==> p.state == FREE
  }

  predicate Sized(ps: seq<Piece>) {
    forall p :: p in ps ==> p.size > 0
  }

  lemma {:induction false} JoinedLast(ps: seq<Piece>)
    requires ps != []
    ensures var js := Joined(ps);
      js != [] && js[0].off == ps[0].off && js[|js| - 1].state == ps[|ps| - 1].state && js[|js| - 1].size >= ps[|ps| - 1].size
    ensures Sized(ps) && |ps| > 1 && FreePair(ps, |ps| - 1) ==> Joined(ps)[|Joined(ps)| - 1].size > ps[|ps| - 1].size
  {
    hide AllFree;
    var init, p := ps[..|ps| - 1], ps[|ps| - 1];
    if init != [] {
      assert init[|init| - 1] == ps[|ps| - 2] && init[|init| - 1] in ps;
      JoinedLast(init);
    }
  }

  // Everything joins into one free piece exactly if all pieces were free.
  lemma {:induction false} JoinedAll(ps: seq<Piece>)
    requires ps != []
    ensures AllFree(ps) <==> |Joined(ps)| == 1 && Joined(ps)[0].state == FREE
  {
    var init, p := ps[..|ps| - 1], ps[|ps| - 1];
    assert ps == init + [p];
    if init != [] { JoinedAll(init); }
  }

  lemma {:induction false} JoinedNone(ps: seq<Piece>)
    requires NoFreePair(ps)
    ensures Joined(ps) == ps
  {
    if ps != [] {
      var init, p := ps[..|ps| - 1], ps[|ps| - 1];
      forall k | 0 < k < |init| ensures !FreePair(init, k) { assert !FreePair(ps, k); }
      JoinedNone(init);
      assert ps == init + [p];
      if |ps| > 1 { assert !FreePair(ps, |ps| - 1); }
    }
  }

  // A boundary inside js whose link does not fit.
  predicate Broken(mem: Memory, js: seq<Piece>, m: nat) {
    0 < m < |js| && js[m].off in mem && mem[js[m].off].prevsize != js[m - 1].size
  }

  lemma BreakStays(mem: Memory, rest: seq<Piece>, p: Piece, m: nat)
    requires Broken(mem, rest, m)
    ensures Broken(mem, JoinMore(rest, p), m)
  {
  }

  lemma PendingBreaks(mem: Memory, rest: seq<Piece>, p: Piece, prev: nat)
    requires rest != [] && rest[|rest| - 1].size > prev && p.off in mem && mem[p.off].prevsize == prev
    ensures var js := JoinMore(rest, p); Broken(mem, js, |rest|) || (js != [] && js[|js| - 1].size > p.size)
  {
  }

  // Once two free neighbours were joined, the link behind them is wrong, now or when the run ends.
  lemma {:induction false} JoinBreaks(mem: Memory, ps: seq<Piece>, e: nat, n: nat, k: nat) returns (m: nat)
    requires PieceLinks(mem, ps, e) && Sized(ps) && k < n <= |ps| && FreePair(ps, k)
    ensures var js := Joined(ps[..n]); Broken(mem, js, m) || (js != [] && js[|js| - 1].size > ps[n - 1].size)
    decreases n
  {
    hide Joined, PieceLinks, Broken, JoinMore;
    var p, init, rest := ps[n - 1], ps[..n - 1], Joined(ps[..n - 1]);
    assert ps[..n] == init + [p];
    assert Joined(ps[..n]) == JoinMore(rest, p) by { JoinedSnoc(init, p); }
    m := 0;
    if k == n - 1 {
      assert forall x :: x in ps[..n] ==> x in ps;
      JoinedLast(ps[..n]);
    } else {
      m := JoinBreaks(mem, ps, e, n - 1, k);
      if Broken(mem, rest, m) {
        BreakStays(mem, rest, p, m);
      } else {
        LinkBefore(mem, ps, e, n - 1);
        PendingBreaks(mem, rest, p, ps[n - 2].size);
        m := |rest|;
      }
    }
  }

  lemma LinkBefore(mem: Memory, ps: seq<Piece>, e: nat, k: nat)
    requires PieceLinks(mem, ps, e) && 0 < k < |ps|
    ensures ps[k].off in mem && mem[ps[k].off].prevsize == ps[k - 1].size
  {
    assert LinkedAt(mem, ps, e, k);
  }

  // The links survive the joining exactly if there was nothing to join.
  lemma JoinedLinksIff(mem: Memory, ps: seq<Piece>, e: nat)
    requires PieceLinks(mem, ps, e) && Sized(ps)
    ensures PieceLinks(mem, Joined(ps), e) <==> NoFreePair(ps)
  {
    if NoFreePair(ps) {
      JoinedNone(ps);
    } else {
      var k :| 0 < k < |ps| && FreePair(ps, k);
      var m := JoinBreaks(mem, ps, e, |ps|, k);
      assert ps[..|ps|] == ps;
      var js := Joined(ps);
      assert LinkedAt(mem, ps, e, |ps|);
      if Broken(mem, js, m) { assert !LinkedAt(mem, js, e, m); } else { assert !LinkedAt(mem, js, e, |js|); }
    }
  }

  // --- pmemalloc_recover ---------------------------------------------------------------------------------

  function Unreserved(mem: Memory, q: seq<nat>): Memory {
    map o | o in mem :: if o in q && StateOf(mem[o]) == RESERVED then mem[o].(word := Sz(mem[o]) + FREE) else mem[o]
  }

  ghost predicate Recovering(mem0: Memory, mem: Memory, q: seq<nat>, e: nat, k: nat) {
    && Tiled(mem0, START, q, e) && k <= |q| && e in mem0 && mem0[e].word == 0 && mem == Unreserved(mem0, q[..k])
  }

  lemma RecoverStarts(mem: Memory, q: seq<nat>, e: nat)
    requires Tiled(mem, START, q, e) && e in mem && mem[e].word == 0
    ensures Recovering(mem, mem, q, e, 0) && Stop(q, e, 0) == START && START in mem
  {
  }

  lemma UnreservedSize(mem: Memory, q: seq<nat>, o: nat)
    requires o in mem
    ensures o in Unreserved(mem, q) && Sz(Unreserved(mem, q)[o]) == Sz(mem[o])
  {
  }

  function Unreserve(mem: Memory, o: nat): Memory
    requires o in mem
  {
    if StateOf(mem[o]) == RESERVED then mem[o := mem[o].(word := Sz(mem[o]) + FREE)] else mem
  }

  lemma UnreservedMore(mem0: Memory, q: seq<nat>, k: nat)
    requires k < |q| && q[k] in mem0 && q[k] !in q[..k]
    ensures q[k] in Unreserved(mem0, q[..k]) && Unreserve(Unreserved(mem0, q[..k]), q[k]) == Unreserved(mem0, q[..k + 1])
  {
  }

  lemma RecoverAt(mem: Memory, q: seq<nat>, e: nat, k: nat)
    requires Tiled(mem, START, q, e) && k < |q|
    ensures q[k] in mem && q[k] !in q[..k] && q[k] + Sz(mem[q[k]]) == Stop(q, e, k + 1) && (k + 1 < |q| ==> q[k + 1] in mem)
  {
    hide Tiled, Sz;
    TiledRange(mem, START, q, e);
    TiledAt(mem, START, q, e, k);
    if k + 1 < |q| { TiledAt(mem, START, q, e, k + 1); }
  }

  lemma EndIsLast(mem: Memory, q: seq<nat>, e: nat)
    requires Tiled(mem, START, q, e)
    ensures e !in q
  {
    TiledRange(mem, START, q, e);
  }

  lemma RecoverStep(mem0: Memory, mem: Memory, q: seq<nat>, e: nat, k: nat)
    requires Recovering(mem0, mem, q, e, k) && Stop(q, e, k) in mem && mem[Stop(q, e, k)].word != 0
    ensures k < |q| && q[k] in mem && q[k] + Sz(mem[q[k]]) == Stop(q, e, k + 1)
    ensures Recovering(mem0, Unreserve(mem, q[k]), q, e, k + 1) && Stop(q, e, k + 1) in Unreserve(mem, q[k])
  {
    hide Tiled, Sz, Unreserve;
    EndIsLast(mem0, q, e);
    assert k < |q|;
    RecoverAt(mem0, q, e, k);
    UnreservedSize(mem0, q[..k], q[k]);
    UnreservedMore(mem0, q, k);
  }

  lemma RecoverEnds(mem0: Memory, mem: Memory, q: seq<nat>, e: nat, k: nat)
    requires Recovering(mem0, mem, q, e, k) && Stop(q, e, k) in mem && mem[Stop(q, e, k)].word == 0
    ensures mem == Unreserved(mem0, q) && Tiled(mem, START, q, e)
  {
    hide Tiled, Sz;
    if k < |q| {
      TiledAt(mem0, START, q, e, k);
      UnreservedSize(mem0, q[..k], q[k]);
      ZeroWord(mem[q[k]]);
    }
    assert q[..k] == q;
    forall x | x in q && x in mem0 ensures x in mem && Sz(mem[x]) == Sz(mem0[x]) { UnreservedSize(mem0, q, x); }
    TiledFrame(mem0, mem, START, q, e);
  }

  // --- restart ---------------------------------------------------------------------------------------------

  // The clump will be free after the restart.
  predicate Idle(mem: Memory, o: nat) {
    o in mem && (StateOf(mem[o]) == FREE || StateOf(mem[o]) == RESERVED)
  }

  predicate NoIdlePair(mem: Memory, q: seq<nat>) {
    forall k :: 0 < k < |q| ==> !(Idle(mem, q[k - 1]) && Idle(mem, q[k]))
  }

  predicate AllIdle(mem: Memory, q: seq<nat>) {
    forall o :: o in q ==> Idle(mem, o)
  }

  lemma UnreservedPiece(mem: Memory, q: seq<nat>, o: nat)
    requires o in q && o in mem
    ensures o in Unreserved(mem, q) && Unreserved(mem, q)[o].prevsize == mem[o].prevsize
    ensures PieceAt(Unreserved(mem, q), o).size == Sz(mem[o]) && (PieceAt(Unreserved(mem, q), o).state == FREE <==> Idle(mem, o))
  {
    Words(Sz(mem[o]), FREE, mem[o].prevsize);
  }

  lemma IdlePairs(mem: Memory, q: seq<nat>)
    requires forall o :: o in q ==> o in mem
    ensures NoFreePair(Pieces(Unreserved(mem, q), q)) <==> NoIdlePair(mem, q)
    ensures AllFree(Pieces(Unreserved(mem, q), q)) <==> AllIdle(mem, q)
  {
    var ps := Pieces(Unreserved(mem, q), q);
    hide Sz, StateOf, Idle, Unreserved, PieceAt;
    forall k | 0 <= k < |q| ensures ps[k].state == FREE <==> Idle(mem, q[k]) {
      assert q[k] in q;
      UnreservedPiece(mem, q, q[k]);
    }
    forall k | 0 < k < |q| ensures FreePair(ps, k) <==> Idle(mem, q[k - 1]) && Idle(mem, q[k]) {
    }
    forall o | o in q ensures Idle(mem, o) <==> exists k :: 0 <= k < |q| && q[k] == o && ps[k].state == FREE {
    }
    if AllFree(ps) {
      forall o | o in q ensures Idle(mem, o) {
        var k :| 0 <= k < |q| && q[k] == o;
        assert ps[k] in ps;
      }
    }
  }

  // What the pieces of a pool are like before the restart, with its reserved clumps taken as free.
  lemma PoolPieces(mem: Memory, q: seq<nat>, z: Edge)
    requires Pool(mem, q, z)
    ensures Tiled(mem, START, q, z.off) && q != [] && (forall o :: o in q ==> o in mem) && Multiple(z.off)
    ensures z.off in mem && mem[z.off].word == 0 && z.off !in q && mem[q[0]].prevsize == 0
    ensures Sized(Pieces(Unreserved(mem, q), q))
    ensures FreshPool(mem, q) || PieceLinks(Unreserved(mem, q), Pieces(Unreserved(mem, q), q), z.off)
  {
    hide Seg, Tiled, Sz, StateOf, Unreserved, FreshPool;
    PoolIsForwardTiled(mem, BEGIN, q, z);
    SegRange(mem, BEGIN, q, z);
    var mem', ps, e := Unreserved(mem, q), Pieces(Unreserved(mem, q), q), z.off;
    hide Pool;
    PoolIsTiled(mem, q, z, 0);
    forall k | 0 <= k < |q| ensures ps[k].size > 0 {
      assert q[k] in q;
      UnreservedPiece(mem, q, q[k]);
    }
    EndIsLast(mem, q, e);
    if !FreshPool(mem, q) {
      forall k | 0 <= k <= |ps| ensures LinkedAt(mem', ps, e, k) {
        PoolIsTiled(mem, q, z, if k == 0 then 0 else k - 1);
        if k > 0 { UnreservedPiece(mem, q, q[k - 1]); }
        if k < |q| { UnreservedPiece(mem, q, q[k]); } else { UnreservedOther(mem, q, e); }
      }
    }
  }

  lemma UnreservedOther(mem: Memory, q: seq<nat>, o: nat)
    requires o in mem && o !in q
    ensures o in Unreserved(mem, q) && Unreserved(mem, q)[o] == mem[o]
  {
  }

  // Clump k is linked back to the one before it, and they are not both free.
  predicate BackLink(mem: Memory, q: seq<nat>, k: nat)
    requires 0 < k < |q|
  {
    && q[k - 1] in mem && q[k] in mem && mem[q[k]].prevsize == Sz(mem[q[k - 1]])
    && !(IsFree(mem[q[k - 1]]) && IsFree(mem[q[k]]))
  }

  // A tiling whose links fit and which has no free neighbours is a segment of a pool.
  lemma {:induction false} TiledSeg(mem: Memory, a: Edge, q: seq<nat>, e: nat) returns (z: Edge)
    requires Tiled(mem, a.off, q, e)
    requires q != [] ==> q[0] in mem && mem[q[0]].prevsize == a.prev && !(a.prevFree && IsFree(mem[q[0]]))
    requires forall k {:trigger BackLink(mem, q, k)} :: 0 < k < |q| ==> BackLink(mem, q, k)
    ensures Seg(mem, a, q, z) && z.off == e && (q != [] ==> q[|q| - 1] in mem && z.prev == Sz(mem[q[|q| - 1]]))
    decreases |q|
  {
    if q == [] {
      z := a;
    } else {
      if |q| > 1 { assert BackLink(mem, q, 1); }
      forall k | 0 < k < |q[1..]| ensures BackLink(mem, q[1..], k) { assert BackLink(mem, q, k + 1); }
      z := TiledSeg(mem, After(mem, q[0]), q[1..], e);
    }
  }

  lemma {:induction false} TiledUnique(mem: Memory, o: nat, q: seq<nat>, r: seq<nat>, e: nat)
    requires Tiled(mem, o, q, e) && Tiled(mem, o, r, e)
    ensures q == r
    decreases |q|
  {
    TiledRange(mem, o, q, e);
    TiledRange(mem, o, r, e);
    if q != [] && r != [] {
      TiledUnique(mem, o + Sz(mem[o]), q[1..], r[1..], e);
      assert q == [q[0]] + q[1..] && r == [r[0]] + r[1..];
    }
  }

  // A tiling is a pool exactly if its links fit and no neighbours are free, or it is one free clump.
  lemma TiledIsPoolIff(mem: Memory, q: seq<nat>, e: nat)
    requires Tiled(mem, START, q, e) && q != [] && Multiple(e) && e in mem && mem[e].word == 0 && q[0] in mem && mem[q[0]].prevsize == 0
    ensures (exists z :: Pool(mem, q, z) && z.off == e) <==>
            (NoFreePair(Pieces(mem, q)) && PieceLinks(mem, Pieces(mem, q), e)) || FreshPool(mem, q)
  {
    hide *;
    if (NoFreePair(Pieces(mem, q)) && PieceLinks(mem, Pieces(mem, q), e)) || FreshPool(mem, q) {
      var z := LinkedTiling(mem, q, e);
    }
    forall z | Pool(mem, q, z) && z.off == e && !FreshPool(mem, q) ensures NoFreePair(Pieces(mem, q)) && PieceLinks(mem, Pieces(mem, q), e) {
      PoolLinks(mem, q, z);
    }
  }

  lemma LinkedTiling(mem: Memory, q: seq<nat>, e: nat) returns (z: Edge)
    requires Tiled(mem, START, q, e) && q != [] && Multiple(e) && e in mem && mem[e].word == 0 && q[0] in mem && mem[q[0]].prevsize == 0
    requires (NoFreePair(Pieces(mem, q)) && PieceLinks(mem, Pieces(mem, q), e)) || FreshPool(mem, q)
    ensures Pool(mem, q, z) && z.off == e
  {
    hide Tiled, Sz, StateOf, Multiple, Seg;
    var ps := Pieces(mem, q);
    TiledRange(mem, START, q, e);
    forall k | 0 < k < |q| ensures BackLink(mem, q, k) {
      assert q[k] in q && q[k - 1] in q;
      assert LinkedAt(mem, ps, e, k) && !FreePair(ps, k);
    }
    z := TiledSeg(mem, BEGIN, q, e);
    if !FreshPool(mem, q) {
      assert LinkedAt(mem, ps, e, |q|);
      assert q[|q| - 1] in q;
    }
  }

  lemma PoolLinks(mem: Memory, q: seq<nat>, z: Edge)
    requires Pool(mem, q, z) && !FreshPool(mem, q)
    ensures NoFreePair(Pieces(mem, q)) && PieceLinks(mem, Pieces(mem, q), z.off)
  {
    hide Pool, Sz, StateOf;
    var ps := Pieces(mem, q);
    PoolEnd(mem, q, z);
    forall k | 0 <= k <= |q| ensures LinkedAt(mem, ps, z.off, k) && (0 < k < |q| ==> !FreePair(ps, k)) {
      PoolIsTiled(mem, q, z, if k == 0 then 0 else k - 1);
    }
  }

  lemma PoolEnd(mem: Memory, q: seq<nat>, z: Edge)
    requires Pool(mem, q, z)
    ensures z.off in mem && q != []
  {
  }

  // The state of a pool after both passes.
  lemma RestartIff(mem0: Memory, q: seq<nat>, z: Edge, mem: Memory, r: seq<nat>)
    requires Pool(mem0, q, z) && Tiled(mem, START, r, z.off) && z.off in mem && mem[z.off].word == 0
    requires Pieces(mem, r) == Joined(Pieces(Unreserved(mem0, q), q)) && OnlySizes(Unreserved(mem0, q), mem)
    ensures (exists z' :: Pool(mem, r, z') && z'.off == z.off) <==> NoIdlePair(mem0, q) || AllIdle(mem0, q)
    ensures forall q', z' :: Pool(mem, q', z') && z'.off == z.off ==> q' == r
  {
    hide Pool, Tiled, Seg, Joined, Unreserved, NoIdlePair, AllIdle, Sz, StateOf, PieceAt, PieceLinks, NoFreePair, AllFree, FreshPool, Sized;
    var mem1, e := Unreserved(mem0, q), z.off;
    var ps, js := Pieces(mem1, q), Pieces(mem, r);
    PoolPieces(mem0, q, z);
    JoinedAll(ps);
    JoinedFacts(ps);
    IdlePairs(mem0, q);
    FirstClump(mem0, q, z, mem, r);
    TiledIsPoolIff(mem, r, e);
    SameLinks(mem1, mem, js, e);
    assert NoFreePair(js) by { NoPairAt(js); }
    assert FreshPool(mem, r) <==> AllFree(ps) by { FreshPieces(mem, r); }
    if FreshPool(mem0, q) {
      assert AllFree(ps) by { FreshIdle(mem0, q); }
    } else {
      JoinedLinksIff(mem1, ps, e);
    }
    forall q', z' | Pool(mem, q', z') && z'.off == e ensures q' == r {
      PoolTiled(mem, q', z');
      TiledUnique(mem, START, q', r, e);
    }
  }

  lemma PoolTiled(mem: Memory, q: seq<nat>, z: Edge)
    requires Pool(mem, q, z)
    ensures Tiled(mem, START, q, z.off)
  {
    hide Seg, Tiled;
    PoolIsForwardTiled(mem, BEGIN, q, z);
  }

  lemma FirstClump(mem0: Memory, q: seq<nat>, z: Edge, mem: Memory, r: seq<nat>)
    requires Pool(mem0, q, z) && Tiled(mem, START, r, z.off) && OnlySizes(Unreserved(mem0, q), mem)
    ensures r != [] && r[0] in mem && mem[r[0]].prevsize == 0
  {
    PoolTiled(mem0, q, z);
    TiledRange(mem0, START, q, z.off);
    StartsAtStart(mem0, q, z);
    PoolIsTiled(mem0, q, z, 0);
    assert q[0] in q;
    hide Pool;
    UnreservedPiece(mem0, q, START);
  }

  lemma SameLinks(mem: Memory, mem': Memory, ps: seq<Piece>, e: nat)
    requires OnlySizes(mem, mem')
    ensures PieceLinks(mem, ps, e) <==> PieceLinks(mem', ps, e)
  {
    forall k | 0 <= k <= |ps| ensures LinkedAt(mem, ps, e, k) <==> LinkedAt(mem', ps, e, k) {
    }
  }

  lemma NoPairAt(js: seq<Piece>)
    requires forall i :: 0 <= i < |js| - 1 ==> !(js[i].state == FREE && js[i + 1].state == FREE)
    ensures NoFreePair(js)
  {
    forall k | 0 < k < |js| ensures !FreePair(js, k) {
      assert !(js[k - 1].state == FREE && js[k - 1 + 1].state == FREE);
    }
  }

  lemma FreshPieces(mem: Memory, r: seq<nat>)
    requires r != [] && r[0] in mem
    ensures FreshPool(mem, r) <==> |Pieces(mem, r)| == 1 && Pieces(mem, r)[0].state == FREE
  {
  }

  lemma FreshIdle(mem: Memory, q: seq<nat>)
    requires FreshPool(mem, q)
    ensures AllFree(Pieces(Unreserved(mem, q), q))
  {
    UnreservedPiece(mem, q, q[0]);
  }

  // --- a pool whose back links a restart spoils --------------------------------------------------------

  // The smallest file a pool is created in; its last 64 bytes hold the terminator.
  const MIN_POOL: nat := 1024 * 1024
  const END: nat := MIN_POOL - CHUNK

  const A: nat := START
  const B: nat := START + 128
  const R: nat := START + 256

  // Three requests, the last for all that is left.
  method Fill() returns (a: Allocator)
    ensures fresh(a) && a.Valid() && a.end == END
    ensures Used(a.mem, a.q) == map[A := (128, RESERVED), B := (128, RESERVED), R := (END - R, RESERVED)]
  {
    hide Pool, Seg, Used, Tiled, Sz, StateOf, Good, Need, NextFit, NoneGood, TakenMem, TakenSeq;
    a := new Allocator(END);
    NewPool(a.mem, a.q, a.z);
    Carve(a.mem, a.q, END - A, 0);
    Reserves(a.mem, a.q, a.cursor, 64);
    var p1, k1 := a.Reserve(64);
    Carve(a.mem, a.q, END - B, 128);
    Reserves(a.mem, a.q, a.cursor, 64);
    var p2, k2 := a.Reserve(64);
    TakeRest(a.mem, a.q);
    Reserves(a.mem, a.q, a.cursor, END - R - CHUNK);
    var p3, k3 := a.Reserve(END - R - CHUNK);
  }

  // A reserved clump, a freed one and an active one that fills the rest; a restart then leaves no pool.
  method UnlinkedRestart() returns (ghost mem: Memory, ghost q: seq<nat>, ghost z: Edge, after: Memory, ghost r: seq<nat>)
    ensures Pool(mem, q, z) && z.off == END && !NoIdlePair(mem, q) && !AllIdle(mem, q)
    ensures Used(mem, q) == map[A := (128, RESERVED), R := (END - R, ACTIVE)]
    ensures Tiled(after, START, r, END) && Pieces(after, r) == Joined(Pieces(Unreserved(mem, q), q))
    ensures !exists q', z' :: Pool(after, q', z') && z'.off == END
  {
    hide Pool, Seg, Used, Tiled, Sz, NoIdlePair, AllIdle, Unreserved, Joined, Pieces;
    var a := Fill();
    Handed(a.mem, a.q, B);
    a.Activate(B + CHUNK);
    Handed(a.mem, a.q, R);
    a.Activate(R + CHUNK);
    a.Free(Some(B + CHUNK));
    mem, q, z := a.mem, a.q, a.z;
    HasIdlePair(mem, q, z);
    a.Restart();
    after, r := a.mem, a.q;
  }

  lemma Handed(mem: Memory, q: seq<nat>, o: nat)
    requires o in Used(mem, q)
    ensures o in q && o in mem && Used(mem, q)[o] == (Sz(mem[o]), StateOf(mem[o]))
  {
  }

  lemma NewPool(mem: Memory, q: seq<nat>, z: Edge)
    requires Pool(mem, q, z) && q == [A] && Used(mem, q) == map[] && z.off == END
    ensures A in mem && mem[A] == Clump(END - A, 0)
  {
    assert q[1..] == [] && Seg(mem, After(mem, A), [], z);
    assert A in q && A !in Used(mem, q);
  }

  // Reserving from the only free clump, the last one.
  lemma Reserves(mem: Memory, q: seq<nat>, cursor: Option<nat>, size: nat)
    requires q != [] && q[|q| - 1] in mem && IsFree(mem[q[|q| - 1]]) && Need(size) <= Sz(mem[q[|q| - 1]])
    requires forall i :: 0 <= i < |q| - 1 ==> q[i] in mem && !IsFree(mem[q[i]])
    ensures exists o :: o in q && Good(mem, o, Need(size))
    ensures forall k :: NextFit(mem, q, cursor, Need(size), k) ==> k == |q| - 1
  {
    assert Good(mem, q[|q| - 1], Need(size));
  }

  // Cutting 128 bytes off the front of the last clump.
  lemma Carve(mem: Memory, q: seq<nat>, sz: nat, prev: nat)
    requires q != [] && q[|q| - 1] in mem && mem[q[|q| - 1]] == Clump(sz, prev) && Multiple(sz) && sz >= 256
    ensures var o := q[|q| - 1];
            && Need(64) == 128 && Sz(mem[o]) == sz && IsFree(mem[o]) && TakenSeq(mem, q, |q| - 1, 128) == q + [o + 128]
            && Sz(Clump(129, prev)) == 128
            && var mem' := TakenMem(mem, o, 128);
               && o in mem' && mem'[o] == Clump(129, prev) && o + 128 in mem' && mem'[o + 128] == Clump(sz - 128, 128)
               && !IsFree(mem'[o]) && forall i :: i in mem && i < o ==> i in mem' && mem'[i] == mem[i]
  {
  }

  lemma TakeRest(mem: Memory, q: seq<nat>)
    requires |q| == 3 && q[2] == R && R in mem && mem[R] == Clump(END - R, 128)
    ensures var size := END - R - CHUNK;
            && Need(size) == Sz(mem[R]) == END - R && IsFree(mem[R]) && TakenSeq(mem, q, 2, Need(size)) == q
            && var mem' := TakenMem(mem, R, Need(size));
               && R in mem' && mem'[R] == Clump(END - R + RESERVED, 128) && Sz(mem'[R]) == END - R
               && forall i :: i in mem && i < R ==> i in mem' && mem'[i] == mem[i]
  {
  }

  lemma HasIdlePair(mem: Memory, q: seq<nat>, z: Edge)
    requires Pool(mem, q, z) && A in Used(mem, q) && Used(mem, q)[A] == (128, RESERVED) && B !in Used(mem, q)
    requires R in Used(mem, q) && Used(mem, q)[R] == (END - R, ACTIVE)
    ensures !NoIdlePair(mem, q) && !AllIdle(mem, q)
  {
    hide Pool, Sz, StateOf;
    StartsAtStart(mem, q, z);
    PoolIsTiled(mem, q, z, 0);
    assert Idle(mem, q[0]) && !Idle(mem, R) && R in q;
    if |q| > 1 {
      PoolIsTiled(mem, q, z, 1);
    }
  }

  lemma ZeroWord(c: Clump)
    ensures c.word == 0 ==> Sz(c) == 0
  {
  }
}
