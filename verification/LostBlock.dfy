/**
 A run of the small-block allocator in which the split branch of `malloc_from_partial` loses blocks.
 The class has 2048 blocks of 32 bytes to a superblock; a fresh thread cache takes at most 512.

 Thread 0 sets up a superblock, takes the first 512 blocks and hands one out.  Thread 1 loads the anchor,
 walks over 512 of the 1536 free blocks and cuts the chain behind them.  Thread 0 exits and flushes its
 511 cached blocks to the front of the chain.  The CAS of thread 1 fails, is tried again with the new
 count and the old index, and succeeds: the 511 blocks are in no chain and in no cache.
 */
module LostBlock {

  import opened Common
  import opened SuperblockHeap

  const C: nat := 3
  const N: nat := 2048
  const M: nat := 512
  const LAST := Blk(0, 2047)
  const FIRST := Anchor(512, 1536, Partial)
  const FLUSHED := Anchor(1, 2047, Partial)

  lemma Class()
    ensures C < NLIST && MaxCount(C) == N && InitialMax(C) == M && Doubled(M, C) == 1024
  {
    assert BlockSize(C) == 32;
  }

  function Upto(lo: nat, hi: nat): (q: seq<nat>)
    requires lo <= hi
  {
    seq(hi - lo, k requires 0 <= k < hi - lo => lo + k)
  }

  function Row(lo: nat, hi: nat): (q: seq<Blk>)
    requires lo <= hi
  {
    Blks(0, Upto(lo, hi))
  }

  // --- reachability --------------------------------------------------------------------------------

  ghost predicate Reached(s: State) {
    exists tr, acts :: Run(tr, acts, 2) && tr[|acts|] == s
  }

  lemma Extend(tr: seq<State>, acts: seq<Act>, a: Act) returns (longer: seq<State>)
    requires AnyRun(tr, acts, 2)
    requires var s := tr[|acts|]; Shape(s) && Allowed(s, a)
    ensures longer == tr + [Do(tr[|acts|], a)] && AnyRun(longer, acts + [a], 2)
    ensures Run(tr, acts, 2) && SplitIsFresh(tr[|acts|], a) ==> Run(longer, acts + [a], 2)
  {
    hide Do, Shape, Allowed, SplitIsFresh, Init;
    longer := tr + [Do(tr[|acts|], a)];
  }

  // A reached state satisfies the invariant.
  ghost predicate Good(s: State) {
    Reached(s) && Inv(s) && Shape(s)
  }

  lemma Next(s: State, a: Act)
    requires Good(s) && Allowed(s, a) && SplitIsFresh(s, a)
    ensures Good(Do(s, a))
  {
    hide Inv, Do, Shape, Allowed, SplitIsFresh, Init;
    var tr, acts :| Run(tr, acts, 2) && tr[|acts|] == s;
    var longer := Extend(tr, acts, a);
    assert longer[|acts + [a]|] == Do(s, a);
    RunKeeps(longer, acts + [a], 2, |acts| + 1);
    InvShape(Do(s, a));
  }

  lemma InvShape(s: State)
    requires Inv(s)
    ensures Shape(s)
  {
  }

  // --- stages -----------------------------------------------------------------------------------------

  // One superblock, described by d; the cached blocks and limit of each thread; where the threads are.
  ghost predicate Stage(s: State, d: Sb, list0: seq<Blk>, list1: seq<Blk>, p0: Pc, p1: Pc) {
    && Good(s) && !s.fault && s.th == [p0, p1] && s.sbs.Keys == {0} && s.sbs[0] == d && s.gone == {}
    && Key(0, C) in s.caches && Key(1, C) in s.caches
    && CacheIs(s.caches[Key(0, C)], list0, 1024) && CacheIs(s.caches[Key(1, C)], list1, M)
    && |s.part| == NLIST && s.part[C] == (if d.holder.Listed? then [0] else [])
    && Link(s.mem, LAST) == NIL
  }

  predicate CacheIs(k: Cache, list: seq<Blk>, max: nat) {
    k.list == list && k.size == |list| && k.max == max && (list != [] ==> k.head == At(list[0]))
  }

  const GO0 := Step(0, false, 0, NIL)
  const GO1 := Step(1, false, 0, NIL)

  lemma Opens() returns (s: State)
    ensures Good(s) && s == Init(2)
  {
    s := Init(2);
    InitInv(2);
    InvShape(s);
    var acts: seq<Act> := [];
    assert Run([s], acts, 2) && [s][|acts|] == s;
  }

  // Thread 0 sets up the superblock: a quarter of it goes to its cache.
  lemma SetsUp() returns (s: State)
    ensures Stage(s, Sb(C, FIRST, Upto(M, N), Held(0), 0), Row(0, M), [], Relist(C, 0), Idle)
  {
    hide Inv, MaxCount, NewMem, NewPlace, BlockSize, Reached;
    Class();
    var s0 := Opens();
    Next(s0, Malloc(0, C));
    var s1 := Do(s0, Malloc(0, C));
    assert s1 == s0.(th := [FillPop(C), Idle]);
    Next(s1, GO0);
    var s2 := Do(s1, GO0);
    assert s2 == s0.(th := [FillNew(C), Idle]);
    Next(s2, GO0);
    s := Do(s2, GO0);
    assert s == DoFillNew(s2, 0, C, 0, NIL);
    assert seq(N - M, i requires 0 <= i => M + i) == Upto(M, N);
    assert seq(M, i requires 0 <= i => Blk(0, i)) == Row(0, M);
    LastLink(s2.mem);
  }

  lemma LastLink(mem: map<Blk, Ptr>)
    ensures Link(NewMem(mem, 0, N, M, NIL), LAST) == NIL
  {
  }

  // It lists the superblock and hands out the first block.
  lemma ListsAndPops(s: State) returns (r: State)
    requires Stage(s, Sb(C, FIRST, Upto(M, N), Held(0), 0), Row(0, M), [], Relist(C, 0), Idle)
    ensures Stage(r, Sb(C, FIRST, Upto(M, N), Listed, 0), Row(1, M), [], Idle, Idle)
  {
    hide Inv, MaxCount, BlockSize, Reached, InitialMax, Doubled;
    Next(s, GO0);
    var s1 := Do(s, GO0);
    assert s1 == DoList(s, 0, C, 0, Pop(C));
    Next(s1, GO0);
    r := Do(s1, GO0);
    assert r == DoPop(s1, 0, C);
    assert Row(0, M)[1..] == Row(1, M);
    CacheLinks(r, 0);
  }

  lemma CacheLinks(s: State, t: nat)
    requires Inv(s) && t < |s.th| && C < NLIST
    ensures CacheInv(s, t, C)
  {
  }

  const D1 := Sb(C, FIRST, Upto(M, N), Held(1), 0)

  // Thread 1 finds an empty cache, takes the superblock off the list and loads its anchor.
  lemma Loads(s: State) returns (r: State)
    requires Stage(s, Sb(C, FIRST, Upto(M, N), Listed, 0), Row(1, M), [], Idle, Idle)
    ensures Stage(r, D1, Row(1, M), [], Idle, SplitWalk(C, 0, FIRST, Row(M, M), At(Blk(0, M))))
  {
    hide Inv, MaxCount, BlockSize, Reached, InitialMax, Doubled;
    Next(s, Malloc(1, C));
    var s1 := Do(s, Malloc(1, C));
    Next(s1, GO1);
    var s2 := Do(s1, GO1);
    assert s2 == DoFillPop(s1, 1, C);
    Next(s2, GO1);
    r := Do(s2, GO1);
    assert r == DoTakeLoad(s2, 1, C, 0);
    assert Row(M, M) == [];
  }

  // It follows n of the 512 links.
  lemma {:induction false} Walks(s: State, n: nat) returns (r: State)
    requires Stage(s, D1, Row(1, M), [], Idle, SplitWalk(C, 0, FIRST, Row(M, M), At(Blk(0, M)))) && n <= M
    ensures Stage(r, D1, Row(1, M), [], Idle, SplitWalk(C, 0, FIRST, Row(M, M + n), At(Blk(0, M + n))))
  {
    hide Inv, MaxCount, BlockSize, Reached, InitialMax, Doubled;
    if n == 0 {
      r := s;
    } else {
      var m := Walks(s, n - 1);
      Next(m, GO1);
      r := Do(m, GO1);
      assert r == DoSplitWalk(m, 1, m.th[1]);
      assert Row(M, M + n - 1) + [Blk(0, M + n - 1)] == Row(M, M + n);
      ChainLink(m, n - 1);
    }
  }

  lemma ChainLink(s: State, n: nat)
    requires Inv(s) && 0 in s.sbs && s.sbs[0] == D1 && n < M
    ensures Link(s.mem, Blk(0, M + n)) == At(Blk(0, M + n + 1))
  {
    hide MaxCount, HolderInv, CacheInv, PartInv, PcInv, PlaceInv;
    assert SbInv(s, 0);
    assert Upto(M, N)[n] == M + n && Upto(M, N)[n + 1] == M + n + 1;
  }

  // It ends its list behind the last of them.
  lemma CutsOff(s: State) returns (r: State)
    requires Stage(s, D1, Row(1, M), [], Idle, SplitWalk(C, 0, FIRST, Row(M, M + M), At(Blk(0, M + M))))
    ensures Stage(r, D2, Row(1, M), [], Idle, SPLIT)
  {
    hide Inv, MaxCount, BlockSize, Reached, InitialMax, Doubled;
    Next(s, GO1);
    r := Do(s, GO1);
    assert r == DoSplitWalk(s, 1, s.th[1]);
  }

  const D2 := Sb(C, FIRST, Upto(M, N), Held(1), 1024)
  const SPLIT := SplitCas(C, 0, FIRST, Row(M, M + M), At(Blk(0, M + M)), FIRST)

  // Thread 0 exits: it detaches its whole cache.
  lemma Detaches(s: State) returns (r: State)
    requires Stage(s, D2, Row(1, M), [], Idle, SPLIT)
    ensures Stage(r, D2, [], [], FlushLoad(C, None, Row(1, M)), SPLIT)
  {
    hide Inv, MaxCount, BlockSize, Reached, InitialMax, Doubled, Gather;
    Next(s, FlushAll(0, C));
    var s1 := Do(s, FlushAll(0, C));
    Next(s1, GO0);
    r := Do(s1, GO0);
    assert r == DoDetach(s1, 0, C, None);
    CacheRow(s1, Row(1, M));
    GatherAll(s1.mem, Row(1, M));
    assert Row(1, M)[M - 1..] == [];
  }

  lemma CacheRow(s: State, list: seq<Blk>)
    requires Inv(s) && |s.th| > 0 && C < NLIST && Key(0, C) in s.caches && s.caches[Key(0, C)].list == list
    ensures forall k {:trigger Link(s.mem, list[k])} :: 0 <= k < |list| - 1 ==> Link(s.mem, list[k]) == At(list[k + 1])
  {
    hide MaxCount, SbInv, HolderInv, PartInv, PcInv, PlaceInv;
    assert CacheInv(s, 0, C);
  }

  // A linked run within one superblock is gathered whole.
  lemma {:induction false} GatherAll(mem: map<Blk, Ptr>, list: seq<Blk>)
    requires list != [] && (forall k :: 0 <= k < |list| - 1 ==> Link(mem, list[k]) == At(list[k + 1]))
    requires forall k :: 0 <= k < |list| ==> list[k].sb == list[0].sb
    ensures Gather(mem, list[0], |list|) == list
    decreases |list|
  {
    if |list| > 1 {
      var rest := list[1..];
      assert Link(mem, list[0]) == At(list[1]);
      assert forall k :: 0 <= k < |rest| - 1 ==> Link(mem, rest[k]) == At(rest[k + 1]);
      GatherAll(mem, rest);
      assert list == [list[0]] + rest;
    } else {
      assert list == [list[0]];
    }
  }

  // It loads the anchor and links the last block of the run to the first one of the chain.
  lemma Links(s: State) returns (r: State)
    requires Stage(s, D2, [], [], FlushLoad(C, None, Row(1, M)), SPLIT)
    ensures Stage(r, D2, [], [], FlushCas(C, None, Row(1, M), FIRST), SPLIT)
  {
    hide Inv, MaxCount, BlockSize, Reached, InitialMax, Doubled;
    Next(s, GO0);
    var s1 := Do(s, GO0);
    assert s1 == s.(th := [FlushWrite(C, None, Row(1, M), FIRST), SPLIT]);
    Next(s1, GO0);
    r := Do(s1, GO0);
  }

  // It puts the run in front of the chain.
  lemma Installs(s: State) returns (r: State)
    requires Stage(s, D2, [], [], FlushCas(C, None, Row(1, M), FIRST), SPLIT)
    ensures Stage(r, D3, [], [], Flush(C, None), SPLIT)
  {
    hide Inv, MaxCount, BlockSize, Reached, InitialMax, Doubled;
    Class();
    Next(s, GO0);
    r := Do(s, GO0);
    assert r == DoFlushCas(s, 0, s.th[0], false);
    assert Idxs(Row(1, M)) + Upto(M, N) == Upto(1, N);
  }

  const D3 := Sb(C, FLUSHED, Upto(1, N), Held(1), 1024)
  const RETRY := SplitCas(C, 0, FIRST, Row(M, M + M), At(Blk(0, M + M)), FLUSHED)

  // Thread 0 is done.  The CAS of thread 1 fails and reloads the anchor.
  lemma Retries(s: State) returns (r: State)
    requires Stage(s, D3, [], [], Flush(C, None), SPLIT)
    ensures Stage(r, D3, [], [], Idle, RETRY)
  {
    hide Inv, MaxCount, BlockSize, Reached, InitialMax, Doubled;
    Next(s, GO0);
    var s1 := Do(s, GO0);
    assert s1.th == [Idle, SPLIT];
    Next(s1, GO1);
    r := Do(s1, GO1);
    assert r == DoSplitCas(s1, 1, SPLIT, false);
  }

  lemma Reaches() returns (s: State)
    ensures Stage(s, D3, [], [], Idle, RETRY)
  {
    hide *;
    s := SetsUp();
    s := ListsAndPops(s);
    s := Loads(s);
    s := Walks(s, M);
    s := CutsOff(s);
    s := Detaches(s);
    s := Links(s);
    s := Installs(s);
    s := Retries(s);
  }

  // --- the last step ------------------------------------------------------------------------------------

  // A free block that no anchor and no cache leads to, and that no thread is about to give back.
  ghost predicate Lost(s: State, b: Blk) {
    && In(s, b, Free) && b.sb in s.sbs
    && b !in Walk(s.mem, At(Blk(b.sb, s.sbs[b.sb].anchor.avail)), s.sbs[b.sb].anchor.count)
    && (forall t, c :: 0 <= t < |s.th| && 0 <= c < NLIST && Key(t, c) in s.caches ==> b !in CacheBlocks(s, t, c))
    && (forall t :: 0 <= t < |s.th| ==> !HasPend(s.th[t]) && !Splits(s.th[t]))
  }

  ghost predicate LosesBlocks(s: State) {
    && 0 in s.sbs && s.sbs[0].anchor == Anchor(1024, 1535, Partial)
    && Walk(s.mem, At(Blk(0, 1024)), 1535) == Row(1024, N)
    && (forall k: nat :: 1 <= k < M ==> Lost(s, Blk(0, k)))
  }

  // The anchor after the second CAS counts 1535 blocks where only 1024 hang, and 511 blocks are lost.
  lemma LostBlockRun() returns (tr: seq<State>, acts: seq<Act>, s: State, s': State)
    ensures AnyRun(tr, acts, 2) && |acts| >= 1 && s == tr[|acts| - 1] && s' == tr[|acts|]
    ensures Inv(s) && !SplitIsFresh(s, acts[|acts| - 1]) && !Inv(s') && LosesBlocks(s')
  {
    hide Inv, MaxCount, BlockSize, Doubled, Init, LosesBlocks, DoSplitCas, Do;
    s := Reaches();
    var tr0, acts0 :| Run(tr0, acts0, 2) && tr0[|acts0|] == s;
    tr := Extend(tr0, acts0, GO1);
    acts := acts0 + [GO1];
    s' := Do(s, GO1);
    StepKeepsIff(s, GO1);
    Loses(s);
  }

  lemma ChainAt(s: State, k: nat)
    requires Inv(s) && 0 in s.sbs && s.sbs[0] == D3 && 1 <= k < N
    ensures In(s, Blk(0, k), Free) && (k != 1023 && k < N - 1 ==> Link(s.mem, Blk(0, k)) == At(Blk(0, k + 1)))
  {
    hide MaxCount, HolderInv, CacheInv, PartInv, PcInv, PlaceInv;
    assert SbInv(s, 0);
    assert Upto(1, N)[k - 1] == k && (k < N - 1 ==> Upto(1, N)[k] == k + 1);
  }

  lemma RowLinks(s: State, lo: nat, hi: nat)
    requires Inv(s) && 0 in s.sbs && s.sbs[0] == D3 && 1 <= lo < hi <= N && !(lo <= 1023 < hi - 1)
    ensures forall k {:trigger Link(s.mem, Row(lo, hi)[k])} :: 0 <= k < hi - lo - 1 ==>
              Link(s.mem, Row(lo, hi)[k]) == At(Row(lo, hi)[k + 1])
  {
    hide Inv, Link;
    forall k | 0 <= k < hi - lo - 1 ensures Link(s.mem, Row(lo, hi)[k]) == At(Row(lo, hi)[k + 1]) { ChainAt(s, lo + k); }
  }

  lemma {:induction false} WalkEnds(mem: map<Blk, Ptr>, list: seq<Blk>, n: nat)
    requires 0 < |list| <= n && (forall k :: 0 <= k < |list| - 1 ==> Link(mem, list[k]) == At(list[k + 1]))
    requires Link(mem, list[|list| - 1]) == NIL
    ensures Walk(mem, At(list[0]), n) == list
    decreases |list|
  {
    if |list| > 1 {
      var rest := list[1..];
      assert Link(mem, list[0]) == At(list[1]);
      assert forall k :: 0 <= k < |rest| - 1 ==> Link(mem, rest[k]) == At(rest[k + 1]);
      WalkEnds(mem, rest, n - 1);
      assert list == [list[0]] + rest;
    } else {
      assert list == [list[0]];
    }
  }

  lemma Loses(s: State)
    requires Stage(s, D3, [], [], Idle, RETRY) && Allowed(s, GO1)
    ensures LosesBlocks(Do(s, GO1))
  {
    hide Inv, MaxCount, BlockSize, Doubled, Walk, Reached, Lost;
    var s' := Do(s, GO1);
    assert s' == DoSplitCas(s, 1, RETRY, false);
    RowLinks(s, 1024, N);
    WalkEnds(s.mem, Row(1024, N), 1535);
    forall k: nat | 1 <= k < M ensures Lost(s', Blk(0, k)) { IsLost(s, s', k); }
  }

  lemma IsLost(s: State, s': State, k: nat)
    requires Stage(s, D3, [], [], Idle, RETRY) && s' == DoSplitCas(s, 1, RETRY, false) && 1 <= k < M
    requires Walk(s.mem, At(Blk(0, 1024)), 1535) == Row(1024, N)
    ensures Lost(s', Blk(0, k))
  {
    hide Inv, MaxCount, BlockSize, Doubled, Walk, Reached, CacheBlocks;
    var b := Blk(0, k);
    ChainAt(s, k);
    assert b !in Row(M, M + M) && b !in Row(1024, N);
    assert In(s', b, Free);
    forall t, c | 0 <= t < |s'.th| && 0 <= c < NLIST && Key(t, c) in s'.caches ensures b !in CacheBlocks(s', t, c) {
      OtherwiseCached(s, s', t, c, b);
    }
  }

  lemma OtherwiseCached(s: State, s': State, t: nat, c: nat, b: Blk)
    requires Inv(s) && Key(1, C) in s.caches && 0 in s.sbs && s.sbs[0] == D3 && In(s, b, Free)
    requires s'.mem == s.mem && s'.caches.Keys == s.caches.Keys && t < |s.th| && c < NLIST && Key(t, c) in s.caches
    requires Key(t, c) != Key(1, C) ==> s'.caches[Key(t, c)] == s.caches[Key(t, c)]
    requires s'.caches[Key(1, C)].head == At(Row(M, M + M)[0]) && s'.caches[Key(1, C)].size == M && b !in Row(M, M + M)
    ensures b !in CacheBlocks(s', t, c)
  {
    hide MaxCount, Walk, SbInv, HolderInv, PartInv, PcInv, PlaceInv;
    if t == 1 && c == C {
      RowLinks(s, M, M + M);
      WalkPrefix(s.mem, Row(M, M + M), M);
      assert Row(M, M + M)[..M] == Row(M, M + M);
    } else {
      assert CacheInv(s, t, c);
      CacheIsWalk(s, t, c);
    }
  }
}
