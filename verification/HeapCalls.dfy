/**
 What the calls of the small-block allocator return: a malloc makes one block of the class asked for
 live, a free puts the block into the cache of the thread that frees it, and the flush of an exiting
 thread leaves its cache empty, whatever other threads do in between.
 */
module HeapCalls {

  import opened Common
  import opened SuperblockHeap

  // The step is one of thread t.
  predicate By(a: Act, t: nat) {
    !a.Write? && a.t == t
  }

  // Thread t starts a call with step i and is in it until state j.
  ghost predicate InCall(tr: seq<State>, acts: seq<Act>, t: nat, i: nat, j: nat) {
    && i < j <= |acts| < |tr| && By(acts[i], t) && t < |tr[i].th| && tr[i].th[t].Idle?
    && forall m :: i < m < j ==> t < |tr[m].th| && !tr[m].th[t].Idle?
  }

  predicate MovesOnly(s: State, s': State, t: nat) {
    |s'.th| == |s.th| && forall u :: 0 <= u < |s.th| && u != t ==> s'.th[u] == s.th[u]
  }

  // --- one step ----------------------------------------------------------------------------------------

  // A flush goes on for the same class and block, or ends with an empty cache.
  predicate FlushGoesOn(s: State, s': State, t: nat)
    requires t < |s.th| && HasPend(s.th[t]) && Key(t, s.th[t].c) in s.caches
  {
    var pc := s.th[t];
    && MovesOnly(s, s', t)
    && if s'.th[t].Idle? then
         && pc.Flush? && s.caches[Key(t, pc.c)].size == 0
         && s' == if pc.pend.Some? then DoPush(s, t, pc.c, pc.pend.value) else Goto(s, t, Idle)
       else HasPend(s'.th[t]) && s'.th[t].c == pc.c && s'.th[t].pend == pc.pend
  }

  lemma FlushMoves(s: State, t: nat, spurious: bool, sbNew: nat, junk: Ptr)
    requires Shape(s) && t < |s.th| && HasPend(s.th[t])
    ensures FlushGoesOn(s, DoStep(s, t, spurious, sbNew, junk), t)
  {
    hide DoPush, DoFillNew, DoFillPop, DoTakeLoad, DoTakeCas, DoPop, DoSplitWalk, DoSplitCas, DoDetach, DoFlushCas, DoList, DoRetire;
    var pc := s.th[t];
    match pc
    case Flush(c, pend) =>
      DetachMoves(s, t, c, pend);
      if pend.Some? { PushEnds(s, t, c, pend.value); }
    case FlushCas(_, _, _, _) => SwapMoves(s, t, pc, spurious);
    case FlushRetire(c, pend, sb) => RetireMoves(s, t, sb, Flush(c, pend));
    case FlushList(c, pend, sb) => ListMoves(s, t, c, sb, Flush(c, pend));
    case _ =>
  }

  lemma DetachMoves(s: State, t: nat, c: nat, pend: Option<Blk>)
    requires t < |s.th| && Key(t, c) in s.caches && s.th[t] == Flush(c, pend)
    ensures var s' := DoDetach(s, t, c, pend);
      MovesOnly(s, s', t) && HasPend(s'.th[t]) && s'.th[t].c == c && s'.th[t].pend == pend
  {
    hide Gather, Moved, Link;
  }

  lemma SwapMoves(s: State, t: nat, pc: Pc, spurious: bool)
    requires t < |s.th| && pc.FlushCas? && s.th[t] == pc
    ensures var s' := DoFlushCas(s, t, pc, spurious);
      MovesOnly(s, s', t) && HasPend(s'.th[t]) && s'.th[t].c == pc.c && s'.th[t].pend == pc.pend
  {
    hide MaxCount, FlushAnchor, Moved, Idxs;
  }

  lemma RetireMoves(s: State, t: nat, sb: nat, pc: Pc)
    requires t < |s.th|
    ensures MovesOnly(s, DoRetire(s, t, sb, pc), t) && DoRetire(s, t, sb, pc).th[t] == pc
  {
  }

  lemma ListMoves(s: State, t: nat, c: nat, sb: nat, pc: Pc)
    requires t < |s.th| && c < |s.part|
    ensures var s' := DoList(s, t, c, sb, pc); MovesOnly(s, s', t) && (s'.th[t] == pc || s'.th[t] == s.th[t])
  {
  }

  lemma PushEnds(s: State, t: nat, c: nat, b: Blk)
    requires t < |s.th| && Key(t, c) in s.caches
    ensures MovesOnly(s, DoPush(s, t, c, b), t) && DoPush(s, t, c, b).th[t].Idle?
  {
  }

  predicate Fills(pc: Pc) {
    Filling(pc) || pc.Relist?
  }

  predicate FillGoesOn(s: State, s': State, t: nat)
    requires t < |s.th| && Fills(s.th[t])
  {
    MovesOnly(s, s', t) && (Fills(s'.th[t]) || s'.th[t].Pop?) && s'.th[t].c == s.th[t].c
  }

  lemma FillMoves(s: State, t: nat, spurious: bool, sbNew: nat, junk: Ptr)
    requires Shape(s) && t < |s.th| && Fills(s.th[t])
    ensures FillGoesOn(s, DoStep(s, t, spurious, sbNew, junk), t)
  {
    hide DoPush, DoFillNew, DoFillPop, DoTakeLoad, DoTakeCas, DoPop, DoSplitWalk, DoSplitCas, DoDetach, DoFlushCas, DoList, DoRetire;
    var pc := s.th[t];
    match pc
    case FillPop(c) => UnlistMoves(s, t, c);
    case FillNew(c) => NewMoves(s, t, c, sbNew, junk);
    case TakeLoad(c, sb) => LoadMoves(s, t, c, sb);
    case TakeCas(_, _, _) => TakeMoves(s, t, pc, spurious);
    case SplitWalk(_, _, _, _, _) => WalkMoves(s, t, pc);
    case SplitCas(_, _, _, _, _, _) => SplitMoves(s, t, pc, spurious);
    case Relist(c, sb) => ListMoves(s, t, c, sb, Pop(c));
  }

  lemma UnlistMoves(s: State, t: nat, c: nat)
    requires t < |s.th| && c < |s.part| && s.th[t] == FillPop(c)
    ensures FillGoesOn(s, DoFillPop(s, t, c), t)
  {
  }

  lemma NewMoves(s: State, t: nat, c: nat, sb: nat, junk: Ptr)
    requires t < |s.th| && Key(t, c) in s.caches && s.th[t] == FillNew(c)
    ensures FillGoesOn(s, DoFillNew(s, t, c, sb, junk), t)
  {
    hide MaxCount, NewMem, NewPlace, Doubled;
  }

  lemma LoadMoves(s: State, t: nat, c: nat, sb: nat)
    requires t < |s.th| && Key(t, c) in s.caches && s.th[t] == TakeLoad(c, sb)
    ensures FillGoesOn(s, DoTakeLoad(s, t, c, sb), t)
  {
    hide DoRetire;
    RetireMoves(s, t, sb, FillPop(c));
  }

  lemma TakeMoves(s: State, t: nat, pc: Pc, spurious: bool)
    requires t < |s.th| && pc.TakeCas? && Key(t, pc.c) in s.caches && s.th[t] == pc
    ensures FillGoesOn(s, DoTakeCas(s, t, pc, spurious), t)
  {
    hide DoRetire, MaxCount, Moved, Blks;
    RetireMoves(s, t, pc.sb, FillPop(pc.c));
  }

  lemma WalkMoves(s: State, t: nat, pc: Pc)
    requires t < |s.th| && pc.SplitWalk? && Key(t, pc.c) in s.caches && s.th[t] == pc
    ensures FillGoesOn(s, DoSplitWalk(s, t, pc), t)
  {
    hide Link;
  }

  lemma SplitMoves(s: State, t: nat, pc: Pc, spurious: bool)
    requires t < |s.th| && pc.SplitCas? && Key(t, pc.c) in s.caches && s.th[t] == pc
    ensures FillGoesOn(s, DoSplitCas(s, t, pc, spurious), t)
  {
    hide Moved, Remaining, Doubled;
  }

  lemma PopMoves(s: State, t: nat, c: nat)
    requires t < |s.th| && Key(t, c) in s.caches && s.th[t] == Pop(c)
    ensures var s' := DoPop(s, t, c); MovesOnly(s, s', t) && (s'.th[t].Idle? || s'.fault)
  {
  }

  // --- a call ------------------------------------------------------------------------------------------

  predicate IsCall(a: Act) {
    a.Malloc? || a.Release? || a.FlushAll?
  }

  predicate CallAt(pc: Pc, a: Act) {
    match a
    case Malloc(_, c) => (Fills(pc) || pc.Pop?) && pc.c == c
    case Release(_, b) => HasPend(pc) && pc.pend == Some(b)
    case FlushAll(_, c) => HasPend(pc) && pc.c == c && pc.pend == None
    case _ => false
  }

  // The step from s to s' that ends a call.
  predicate Ends(s: State, s': State, t: nat, a: Act)
    requires t < |s.th|
  {
    match a
    case Malloc(_, c) => s.th[t] == Pop(c) && Key(t, c) in s.caches && s' == DoPop(s, t, c)
    case Release(_, b) =>
      && b.sb in s.sbs && var c := s.sbs[b.sb].cls;
         Key(t, c) in s.caches && s' == DoPush(s, t, c, b)
         && (s.th[t].Idle? ==> s.caches[Key(t, c)].size <= s.caches[Key(t, c)].max)
         && (!s.th[t].Idle? ==> s.caches[Key(t, c)].size == 0)
    case FlushAll(_, c) => Key(t, c) in s.caches && s.caches[Key(t, c)].size == 0 && s' == Goto(s, t, Idle)
    case _ => false
  }

  // After one more step of its thread a call is under way or over.
  predicate Advances(s: State, s': State, t: nat, a: Act)
    requires t < |s.th|
  {
    t < |s'.th| && if s'.th[t].Idle? then Ends(s, s', t, a) else CallAt(s'.th[t], a)
  }

  lemma CallStarts(s: State, a: Act)
    requires Shape(s) && Allowed(s, a) && IsCall(a) && !Do(s, a).fault
    ensures Advances(s, Do(s, a), a.t, a)
  {
    hide DoPush;
    if a.Release? && a.b.sb in s.sbs && s.sbs[a.b.sb].cls < NLIST { PushEnds(s, a.t, s.sbs[a.b.sb].cls, a.b); }
  }

  lemma CallAdvances(s: State, a: Act, call: Act)
    requires Shape(s) && Allowed(s, a) && a.Step? && CallAt(s.th[a.t], call) && !Do(s, a).fault
    requires HasPend(s.th[a.t]) && s.th[a.t].pend.Some? ==> ClassIs(s, s.th[a.t].pend.value.sb, s.th[a.t].c)
    ensures Advances(s, Do(s, a), a.t, call)
  {
    hide DoStep, DoPush, DoPop;
    var t, pc := a.t, s.th[a.t];
    if HasPend(pc) {
      FlushMoves(s, t, a.spurious, a.sbNew, a.junk);
    } else if Fills(pc) {
      FillMoves(s, t, a.spurious, a.sbNew, a.junk);
    } else {
      PopStep(s, t, pc.c, a.spurious, a.sbNew, a.junk);
      PopMoves(s, t, pc.c);
    }
  }

  lemma PopStep(s: State, t: nat, c: nat, spurious: bool, sbNew: nat, junk: Ptr)
    requires Shape(s) && t < |s.th| && s.th[t] == Pop(c)
    ensures Key(t, c) in s.caches && DoStep(s, t, spurious, sbNew, junk) == DoPop(s, t, c)
  {
    hide DoPop;
  }

  lemma OthersStay(s: State, a: Act, u: nat)
    requires Shape(s) && Allowed(s, a) && u < |s.th| && !By(a, u)
    ensures |Do(s, a).th| == |s.th| && Do(s, a).th[u] == s.th[u]
  {
    hide DoStep, DoPush, DoPop;
    if a.Step? {
      var t, pc := a.t, s.th[a.t];
      if HasPend(pc) { FlushMoves(s, t, a.spurious, a.sbNew, a.junk); }
      else if Fills(pc) { FillMoves(s, t, a.spurious, a.sbNew, a.junk); }
      else {
        PopStep(s, t, pc.c, a.spurious, a.sbNew, a.junk);
        PopMoves(s, t, pc.c);
      }
    } else if a.Release? && a.b.sb in s.sbs && s.sbs[a.b.sb].cls < NLIST {
      PushEnds(s, a.t, s.sbs[a.b.sb].cls, a.b);
    }
  }

  lemma SoundPoint(s: State, t: nat)
    requires Inv(s) && t < |s.th|
    ensures Shape(s) && !s.fault && (HasPend(s.th[t]) && s.th[t].pend.Some? ==> ClassIs(s, s.th[t].pend.value.sb, s.th[t].c))
  {
    Have(s, t, 0);
  }

  lemma NoFault(s: State)
    requires Inv(s)
    ensures !s.fault
  {
  }

  lemma Starts(s: State, a: Act, t: nat)
    requires Shape(s) && Allowed(s, a) && By(a, t) && s.th[t].Idle?
    ensures IsCall(a)
  {
  }

  lemma Busy(s: State, a: Act, t: nat)
    requires Shape(s) && Allowed(s, a) && By(a, t) && !s.th[t].Idle?
    ensures a.Step?
  {
  }

  lemma {:induction false} CallHistory(tr: seq<State>, acts: seq<Act>, n: nat, t: nat, i: nat, j: nat)
    requires Run(tr, acts, n) && InCall(tr, acts, t, i, j)
    ensures t < |tr[j].th| && t < |tr[j - 1].th| && IsCall(acts[i])
    ensures if tr[j].th[t].Idle? then By(acts[j - 1], t) && Ends(tr[j - 1], tr[j], t, acts[i]) else CallAt(tr[j].th[t], acts[i])
  {
    hide Inv, Do, Shape, Allowed, Ends, CallAt, Init, SplitIsFresh;
    var s, a := tr[j - 1], acts[j - 1];
    RunKeeps(tr, acts, n, j - 1);
    RunKeeps(tr, acts, n, j);
    SoundPoint(s, t);
    NoFault(tr[j]);
    if i + 1 == j {
      Starts(s, a, t);
      CallStarts(s, a);
    } else {
      CallHistory(tr, acts, n, t, i, j - 1);
      if By(a, t) {
        Busy(s, a, t);
        CallAdvances(s, a, acts[i]);
      } else {
        OthersStay(s, a, t);
      }
    }
  }

  // --- what the calls do ---------------------------------------------------------------------------------

  ghost predicate OnlyBecomesLive(s: State, s': State, b: Blk) {
    forall x :: In(s', x, Live) <==> In(s, x, Live) || x == b
  }

  // A malloc of class c ends with the step that makes one block live: it is of class c and was in the
  // thread's cache of that class.  No other step of the call makes a block live.
  lemma MallocIsServed(tr: seq<State>, acts: seq<Act>, n: nat, t: nat, c: nat, i: nat, j: nat) returns (b: Blk)
    requires Run(tr, acts, n) && InCall(tr, acts, t, i, j) && acts[i] == Malloc(t, c) && t < |tr[j].th| && tr[j].th[t].Idle?
    ensures var s, s' := tr[j - 1], tr[j];
      && By(acts[j - 1], t) && In(s, b, Cached(t, c)) && ClassIs(s', b.sb, c) && In(s', b, Live) && !In(s, b, Live)
      && OnlyBecomesLive(s, s', b)
    ensures forall m :: i <= m < j - 1 && By(acts[m], t) ==> NoNewLive(tr[m], tr[m + 1])
  {
    hide Inv, Do, Shape, Allowed, Init, SplitIsFresh, DoPop, OnlyBecomesLive, NoNewLive, In, ClassIs, Run;
    CallHistory(tr, acts, n, t, i, j);
    RunKeeps(tr, acts, n, j - 1);
    b := PoppedBlock(tr[j - 1], t, c);
    forall m | i <= m < j - 1 && By(acts[m], t) ensures NoNewLive(tr[m], tr[m + 1]) {
      NotYet(tr, acts, n, t, i, m);
    }
  }

  lemma PoppedBlock(s: State, t: nat, c: nat) returns (b: Blk)
    requires Inv(s) && t < |s.th| && s.th[t] == Pop(c) && Key(t, c) in s.caches
    ensures var s' := DoPop(s, t, c);
      && In(s, b, Cached(t, c)) && ClassIs(s', b.sb, c) && In(s', b, Live) && !In(s, b, Live) && OnlyBecomesLive(s, s', b)
  {
    assert PcInv(s, t, s.th[t]) && CacheInv(s, t, c);
    hide Inv, PcInv;
    b := s.caches[Key(t, c)].list[0];
  }

  // Before its last step a malloc hands out nothing.
  lemma NotYet(tr: seq<State>, acts: seq<Act>, n: nat, t: nat, i: nat, m: nat)
    requires Run(tr, acts, n) && InCall(tr, acts, t, i, m + 1) && i <= m < |acts| && By(acts[m], t)
    requires m + 1 < |tr| && t < |tr[m + 1].th| && !tr[m + 1].th[t].Idle?
    ensures NoNewLive(tr[m], tr[m + 1])
  {
    hide Inv, Do, Shape, Allowed, Init, SplitIsFresh, DoPop, In;
    RunKeeps(tr, acts, n, m);
    RunKeeps(tr, acts, n, m + 1);
    NoFault(tr[m + 1]);
    GoesOnQuietly(tr[m], acts[m], t);
  }

  lemma GoesOnQuietly(s: State, a: Act, t: nat)
    requires Shape(s) && Allowed(s, a) && By(a, t) && t < |Do(s, a).th| && !Do(s, a).th[t].Idle? && !Do(s, a).fault
    ensures NoNewLive(s, Do(s, a))
  {
    hide Do, DoPop;
    if a.Step? && s.th[t].Pop? {
      PopStep(s, t, s.th[t].c, a.spurious, a.sbNew, a.junk);
      PopMoves(s, t, s.th[t].c);
      StepIsDo(s, a);
    } else {
      forall b | b in Do(s, a).place && Do(s, a).place[b].Live? ensures b in s.place && s.place[b].Live? {
        NoLiveOtherwise(s, a, b);
      }
    }
  }

  lemma StepIsDo(s: State, a: Act)
    requires Shape(s) && Allowed(s, a) && a.Step?
    ensures Do(s, a) == DoStep(s, a.t, a.spurious, a.sbNew, a.junk)
  {
    hide DoStep;
  }

  // --- from sizes to classes -------------------------------------------------------------------------------

  function RoundTo(size: nat, align: nat): nat
    requires align > 0
  {
    (size + align - 1) / align * align
  }

  // ClassSize::RoundUp
  function RoundUp(size: nat): nat {
    if size <= 128 then RoundTo(size, 8)
    else if size <= 1024 then RoundTo(size, 16)
    else if size <= 8192 then RoundTo(size, 128)
    else RoundTo(size, 512)
  }

  // The class found in `sizetoindex` under a rounded size.
  ghost predicate InTable(size: nat, c: nat) {
    c < NLIST && BlockSize(c) == size
  }

  lemma {:induction false} ClassesGrow(c: nat, c': nat)
    requires c < c' < NLIST
    ensures BlockSize(c) < BlockSize(c')
    decreases c'
  {
    if c + 1 < c' { ClassesGrow(c, c' - 1); }
  }

  // Every small size finds one class, the smallest one whose blocks have room for it.
  lemma SizeHasClass(size: nat) returns (c: nat)
    requires 0 < size <= 24576
    ensures InTable(RoundUp(size), c) && forall d: nat :: InTable(RoundUp(size), d) ==> d == c
    ensures size <= BlockSize(c) && forall d :: 0 <= d < c ==> BlockSize(d) < size
  {
    c := if size <= 128 then (size + 7) / 8 - 1
         else if size <= 1024 then (size - 128 + 15) / 16 + 15
         else if size <= 8192 then (size - 1024 + 127) / 128 + 71
         else (size - 8192 + 511) / 512 + 127;
    assert BlockSize(c) == RoundUp(size) && size <= BlockSize(c) && (c > 0 ==> BlockSize(c - 1) < size);
    hide BlockSize, RoundUp;
    forall d | 0 <= d < c ensures BlockSize(d) < size {
      if d < c - 1 { ClassesGrow(d, c - 1); }
    }
    forall d: nat | InTable(RoundUp(size), d) ensures d == c {
      if d < c { ClassesGrow(d, c); } else if c < d { ClassesGrow(c, d); }
    }
  }

  // A malloc of a size is served with a block that has room for it.
  lemma MallocFits(tr: seq<State>, acts: seq<Act>, n: nat, t: nat, size: nat, i: nat, j: nat) returns (b: Blk)
    requires Run(tr, acts, n) && InCall(tr, acts, t, i, j) && t < |tr[j].th| && tr[j].th[t].Idle?
    requires 0 < size <= 24576 && acts[i].Malloc? && acts[i].t == t && InTable(RoundUp(size), acts[i].c)
    ensures In(tr[j], b, Live) && !In(tr[j - 1], b, Live) && b.sb in tr[j].sbs && size <= BlockSize(tr[j].sbs[b.sb].cls)
  {
    hide Inv, Do, Shape, Allowed, Init, SplitIsFresh, OnlyBecomesLive, NoNewLive, In, Run, InTable, RoundUp, BlockSize;
    var c := SizeHasClass(size);
    b := MallocIsServed(tr, acts, n, t, acts[i].c, i, j);
  }

  // A free that is over has put the block in front of the cache of its class, after flushing a cache that
  // was over its limit; the block is live no more.
  lemma ReleaseIsServed(tr: seq<State>, acts: seq<Act>, n: nat, t: nat, b: Blk, i: nat, j: nat)
    requires Run(tr, acts, n) && InCall(tr, acts, t, i, j) && acts[i] == Release(t, b) && t < |tr[j].th| && tr[j].th[t].Idle?
    ensures b.sb in tr[j].sbs && var c := tr[j].sbs[b.sb].cls;
      && Key(t, c) in tr[j - 1].caches && Key(t, c) in tr[j].caches && In(tr[j], b, Cached(t, c)) && !In(tr[j], b, Live)
      && tr[j].caches[Key(t, c)].list == [b] + tr[j - 1].caches[Key(t, c)].list
      && (i + 1 < j ==> tr[j].caches[Key(t, c)].list == [b])
  {
    hide Inv, Do, Shape, Allowed, Init, SplitIsFresh, Ends, In;
    CallHistory(tr, acts, n, t, i, j);
    RunKeeps(tr, acts, n, j - 1);
    RunKeeps(tr, acts, n, j);
    Released(tr[j - 1], tr[j], t, b);
  }

  lemma Released(s: State, s': State, t: nat, b: Blk)
    requires Inv(s) && Inv(s') && t < |s.th| && Ends(s, s', t, Release(t, b))
    ensures b.sb in s'.sbs && var c := s'.sbs[b.sb].cls;
      && Key(t, c) in s.caches && Key(t, c) in s'.caches && In(s', b, Cached(t, c)) && !In(s', b, Live)
      && s'.caches[Key(t, c)].list == [b] + s.caches[Key(t, c)].list
      && (!s.th[t].Idle? ==> s.caches[Key(t, c)].list == [])
  {
    assert SbInv(s, b.sb);
    assert CacheInv(s, t, s.sbs[b.sb].cls);
    hide Inv, SbInv, CacheInv;
  }

  // The flush of an exiting thread ends with an empty cache.
  lemma FlushIsServed(tr: seq<State>, acts: seq<Act>, n: nat, t: nat, c: nat, i: nat, j: nat)
    requires Run(tr, acts, n) && InCall(tr, acts, t, i, j) && acts[i] == FlushAll(t, c) && t < |tr[j].th| && tr[j].th[t].Idle?
    ensures Key(t, c) in tr[j].caches && tr[j].caches[Key(t, c)].list == []
    ensures forall b :: !In(tr[j], b, Cached(t, c))
  {
    hide Inv, Do, Shape, Init, SplitIsFresh, In;
    CallHistory(tr, acts, n, t, i, j);
    RunKeeps(tr, acts, n, j);
    CachedOnly(tr[j], t, c);
  }

  lemma CachedOnly(s: State, t: nat, c: nat)
    requires Inv(s) && t < |s.th| && c < NLIST && Key(t, c) in s.caches && s.caches[Key(t, c)].size == 0
    ensures s.caches[Key(t, c)].list == [] && forall b :: !In(s, b, Cached(t, c))
  {
    assert CacheInv(s, t, c);
  }
}
