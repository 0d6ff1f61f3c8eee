/**
 The small-block allocator: superblock anchors, free chains threaded through the blocks, and
 per-thread caches, as a state machine.  `flush_cache` and both branches of `malloc_from_partial`
 take one step per anchor load, link load, link store and compare-and-swap; the gathering of a run
 from a thread's own cache and the set-up of a new superblock, which no other thread knows yet, are
 one step each.  The partial lists are stacks here; PartialList.dfy proves that the tagged
 list implements one.  Users may overwrite the first word of any block they hold at any time.

 The split branch does not recompute its index when its CAS fails and is tried again.  A CAS that
 replaces another anchor than the one loaded first (`!SplitIsFresh`) breaks the invariant, and no other
 step does (`StepKeepsIff`, `RunKeepsIff`); `LostBlockRun` is a run that loses a block this way.

 Auxiliary state, never read by a step except to update itself: `place`, the sequences `chain`
 and `list`, `holder` and `cut`.
 */
module SuperblockHeap {

  import opened Common

  // --- size classes (ClassSize) and thread-cache limits (ThreadCache) ---------------------

  function BlockSize(c: nat): (r: nat)
    ensures 8 <= r && (c < NLIST ==> r <= 24576)
  {
    if c < 16 then (c + 1) * 8
    else if c < 72 then 128 + (c + 1 - 16) * 16
    else if c < 128 then 1024 + (c + 1 - 72) * 128
    else 8192 + (c + 1 - 128) * 512
  }

  // Blocks per superblock; every class has at least two.
  function MaxCount(c: nat): (r: nat)
    ensures c < NLIST ==> 2 <= r <= 8192
  {
    hide BlockSize;
    if c < NLIST then
      QuotientInRange(BlockSize(c));
      SBSIZE / BlockSize(c)
    else 0
  }

  lemma QuotientInRange(d: nat)
    requires 8 <= d <= 24576
    ensures 2 <= SBSIZE / d <= 8192 && SBSIZE / d * d <= SBSIZE < (SBSIZE / d + 1) * d
  {
  }

  // They are as many as fit.
  lemma BlocksFill(c: nat)
    requires c < NLIST
    ensures MaxCount(c) * BlockSize(c) <= SBSIZE < (MaxCount(c) + 1) * BlockSize(c)
  {
    hide BlockSize;
    QuotientInRange(BlockSize(c));
  }

  function InitialMax(c: nat): nat {
    var n := MaxCount(c);
    if n > 2048 then 2048 else if n > 512 then 512 else n
  }

  function Doubled(max: nat, c: nat): nat {
    if max * 2 < MaxCount(c) then max * 2 else MaxCount(c)
  }

  // --- data ---------------------------------------------------------------------------------

  datatype Blk = Blk(sb: nat, i: nat)
  datatype Ptr = At(b: Blk) | Junk(w: int)
  const NIL: Ptr := Junk(0)

  datatype SbState = Full | Partial | Empty
  datatype Anchor = Anchor(avail: nat, count: nat, state: SbState)
  datatype Holder = Nobody | Listed | Held(tid: nat)
  // `cut` is the length of the part of the chain that a split has cut off but not yet installed.
  datatype Sb = Sb(cls: nat, anchor: Anchor, chain: seq<nat>, holder: Holder, cut: nat)

  datatype Key = Key(t: nat, c: nat)
  datatype Cache = Cache(head: Ptr, size: nat, max: nat, list: seq<Blk>)

  datatype Place = Free | Cached(t: nat, c: nat) | Live | Moving(t: nat) | Pending(t: nat)

  datatype Pc =
    | Idle
    | Pop(c: nat)
    | Flush(c: nat, pend: Option<Blk>)
    | FlushLoad(c: nat, pend: Option<Blk>, run: seq<Blk>)
    | FlushWrite(c: nat, pend: Option<Blk>, run: seq<Blk>, was: Anchor)
    | FlushCas(c: nat, pend: Option<Blk>, run: seq<Blk>, was: Anchor)
    | FlushRetire(c: nat, pend: Option<Blk>, sb: nat)
    | FlushList(c: nat, pend: Option<Blk>, sb: nat)
    | FillPop(c: nat)
    | FillNew(c: nat)
    | TakeLoad(c: nat, sb: nat)
    | TakeCas(c: nat, sb: nat, was: Anchor)
    // `first` is the anchor loaded at line 444, `got` the blocks walked over and `rest` what follows them
    | SplitWalk(c: nat, sb: nat, first: Anchor, got: seq<Blk>, rest: Ptr)
    | SplitCas(c: nat, sb: nat, first: Anchor, got: seq<Blk>, rest: Ptr, was: Anchor)
    | Relist(c: nat, sb: nat)

  datatype State = State(
    mem: map<Blk, Ptr>, sbs: map<nat, Sb>, gone: set<nat>, caches: map<Key, Cache>,
    part: seq<seq<nat>>, th: seq<Pc>, place: map<Blk, Place>, fault: bool)

  datatype Act =
    | Malloc(t: nat, c: nat)
    | Release(t: nat, b: Blk)
    | FlushAll(t: nat, c: nat)
    | Step(t: nat, spurious: bool, sbNew: nat, junk: Ptr)
    | Write(b: Blk, w: Ptr)

  function Link(mem: map<Blk, Ptr>, b: Blk): Ptr {
    if b in mem then mem[b] else NIL
  }

  function Moved(place: map<Blk, Place>, bs: set<Blk>, p: Place): map<Blk, Place> {
    map b | b in place :: if b in bs then p else place[b]
  }

  function Elems(bs: seq<Blk>): set<Blk> { set b | b in bs }

  function Blks(sb: nat, idx: seq<nat>): seq<Blk> { seq(|idx|, k requires 0 <= k < |idx| => Blk(sb, idx[k])) }

  function Idxs(bs: seq<Blk>): seq<nat> { seq(|bs|, k requires 0 <= k < |bs| => bs[k].i) }

  // The first blocks of a cache list that lie in the superblock of its first block (lines 332-343).
  function Gather(mem: map<Blk, Ptr>, b: Blk, size: nat): seq<Blk>
    decreases size
  {
    if size <= 1 then [b] else
    match Link(mem, b)
    case At(b') => if b'.sb == b.sb then [b] + Gather(mem, b', size - 1) else [b]
    case Junk(_) => [b]
  }

  // The blocks met by following links n times.
  function Walk(mem: map<Blk, Ptr>, p: Ptr, n: nat): seq<Blk>
    decreases n
  {
    if n == 0 || p.Junk? then [] else [p.b] + Walk(mem, Link(mem, p.b), n - 1)
  }

  function Init(n: nat): State {
    State(map[], map[], {},
          map t, c | 0 <= t < n && 0 <= c < NLIST :: Key(t, c) := Cache(NIL, 0, InitialMax(c), []),
          seq(NLIST, _ => []), seq(n, _ => Idle), map[], false)
  }

  predicate Shape(s: State) {
    && |s.part| == NLIST
    && (forall t, c :: 0 <= t < |s.th| && 0 <= c < NLIST ==> Key(t, c) in s.caches)
    && (forall t :: 0 <= t < |s.th| ==> s.th[t].Idle? || s.th[t].c < NLIST)
  }

  predicate Allowed(s: State, a: Act) {
    && !s.fault
    && (match a
        case Malloc(t, c) => t < |s.th| && s.th[t].Idle? && c < NLIST
        case Release(t, b) => t < |s.th| && s.th[t].Idle? && b in s.place && s.place[b].Live?
        case FlushAll(t, c) => t < |s.th| && s.th[t].Idle? && c < NLIST
        case Step(t, _, sbNew, _) =>
          && t < |s.th| && !s.th[t].Idle?
          && (s.th[t].FillNew? ==> sbNew !in s.sbs && sbNew !in s.gone)
        case Write(b, _) => b in s.place && s.place[b].Live?)
  }

  // --- steps ----------------------------------------------------------------------------------

  function Goto(s: State, t: nat, pc: Pc): State
    requires t < |s.th|
  {
    s.(th := s.th[t := pc])
  }

  // FreeList::Pop
  function DoPop(s: State, t: nat, c: nat): State
    requires t < |s.th| && Key(t, c) in s.caches
  {
    var k := s.caches[Key(t, c)];
    if k.size == 0 || k.head.Junk? || k.list == [] then s.(fault := true)
    else
      var b := k.head.b;
      Goto(s, t, Idle).(
        caches := s.caches[Key(t, c) := Cache(Link(s.mem, b), k.size - 1, k.max, k.list[1..])],
        place := s.place[b := Live])
  }

  // FreeList::Push
  function DoPush(s: State, t: nat, c: nat, b: Blk): State
    requires t < |s.th| && Key(t, c) in s.caches
  {
    var k := s.caches[Key(t, c)];
    Goto(s, t, Idle).(
      mem := s.mem[b := k.head],
      caches := s.caches[Key(t, c) := Cache(At(b), k.size + 1, k.max, [b] + k.list)],
      place := s.place[b := Cached(t, c)])
  }

  // One round of flush_cache: detach the leading blocks of one superblock (lines 319-345).
  function DoDetach(s: State, t: nat, c: nat, pend: Option<Blk>): State
    requires t < |s.th| && Key(t, c) in s.caches
  {
    var k := s.caches[Key(t, c)];
    if k.head.Junk? then s.(fault := true)
    else
      var run := Gather(s.mem, k.head.b, k.size);
      if |run| > k.size || |run| > |k.list| || |run| == 0 then s.(fault := true)
      else
        Goto(s, t, FlushLoad(c, pend, run)).(
          caches := s.caches[Key(t, c) :=
                      Cache(Link(s.mem, run[|run| - 1]), k.size - |run|, k.max, k.list[|run|..])],
          place := Moved(s.place, Elems(run), Moving(t)))
  }

  function FlushAnchor(was: Anchor, idx: nat, n: nat, c: nat): Anchor
    requires MaxCount(c) > 0
  {
    if was.count + n == MaxCount(c) then Anchor(idx, MaxCount(c) - 1, Empty)
    else Anchor(idx, was.count + n, if was.state.Full? then Partial else was.state)
  }

  function AfterFlush(c: nat, pend: Option<Blk>, sb: nat, was: Anchor, now: Anchor): Pc {
    if was.state.Full? then
      if now.state.Empty? then FlushRetire(c, pend, sb) else FlushList(c, pend, sb)
    else Flush(c, pend)
  }

  // The compare-and-swap of the anchor in flush_cache (lines 357-392).
  function DoFlushCas(s: State, t: nat, pc: Pc, spurious: bool): State
    requires t < |s.th| && pc.FlushCas?
  {
    if pc.run == [] || pc.run[0].sb !in s.sbs || MaxCount(pc.c) == 0 then s.(fault := true)
    else
      var sb := pc.run[0].sb;
      var d := s.sbs[sb];
      if d.anchor != pc.was || spurious then Goto(s, t, FlushWrite(pc.c, pc.pend, pc.run, d.anchor))
      else
        var now := FlushAnchor(pc.was, pc.run[0].i, |pc.run|, pc.c);
        Goto(s, t, AfterFlush(pc.c, pc.pend, sb, pc.was, now)).(
          sbs := s.sbs[sb := Sb(d.cls, now, Idxs(pc.run) + d.chain,
                                if pc.was.state.Full? then Held(t) else d.holder, d.cut)],
          place := Moved(s.place, Elems(pc.run), Free))
  }

  // small_sb_retire: the descriptor is erased and the superblock is not reused
  function DoRetire(s: State, t: nat, sb: nat, pc: Pc): State
    requires t < |s.th|
  {
    Goto(s, t, pc).(sbs := s.sbs - {sb}, gone := s.gone + {sb},
                    place := map b | b in s.place && b.sb != sb :: s.place[b])
  }

  // heap_push_partial
  function DoList(s: State, t: nat, c: nat, sb: nat, pc: Pc): State
    requires t < |s.th| && c < |s.part|
  {
    if sb !in s.sbs then s.(fault := true)
    else Goto(s, t, pc).(part := s.part[c := [sb] + s.part[c]],
                         sbs := s.sbs[sb := s.sbs[sb].(holder := Listed)])
  }

  // heap_pop_partial at the head of malloc_from_partial (lines 437-442)
  function DoFillPop(s: State, t: nat, c: nat): State
    requires t < |s.th| && c < |s.part|
  {
    if s.part[c] == [] then Goto(s, t, FillNew(c))
    else
      var sb := s.part[c][0];
      if sb !in s.sbs then s.(fault := true)
      else Goto(s, t, TakeLoad(c, sb)).(part := s.part[c := s.part[c][1..]],
                                        sbs := s.sbs[sb := s.sbs[sb].(holder := Held(t))])
  }

  // The split branch, lines 484-494: follow one more link, or end the list at its last block.  A link that is
  // no block is a fault; the code would go on with an index computed from it.
  function DoSplitWalk(s: State, t: nat, pc: Pc): State
    requires t < |s.th| && pc.SplitWalk? && Key(t, pc.c) in s.caches
  {
    if pc.rest.Junk? || pc.sb !in s.sbs then s.(fault := true)
    else if |pc.got| < s.caches[Key(t, pc.c)].max then
      Goto(s, t, SplitWalk(pc.c, pc.sb, pc.first, pc.got + [pc.rest.b], Link(s.mem, pc.rest.b)))
    else if pc.got == [] || pc.first.count < |pc.got| then s.(fault := true)
    else
      Goto(s, t, SplitCas(pc.c, pc.sb, pc.first, pc.got, pc.rest, pc.first)).(
        mem := s.mem[pc.got[|pc.got| - 1] := NIL],
        sbs := s.sbs[pc.sb := s.sbs[pc.sb].(cut := pc.first.count - |pc.got|)])
  }

  // What stays of a chain of whose last n members the first m are taken out.
  function Remaining(chain: seq<nat>, n: nat, m: nat): seq<nat> {
    if m <= n <= |chain| then chain[..|chain| - n] + chain[|chain| - n + m..] else []
  }

  // The compare-and-swap of the split branch (lines 499-521): a failure reloads the old anchor, but
  // not the index.
  function DoSplitCas(s: State, t: nat, pc: Pc, spurious: bool): State
    requires t < |s.th| && pc.SplitCas? && Key(t, pc.c) in s.caches
  {
    if pc.sb !in s.sbs || pc.got == [] || pc.rest.Junk? || pc.was.count < |pc.got| then s.(fault := true)
    else
      var d, k := s.sbs[pc.sb], s.caches[Key(t, pc.c)];
      if d.anchor != pc.was || spurious then
        Goto(s, t, SplitCas(pc.c, pc.sb, pc.first, pc.got, pc.rest, d.anchor))
      else
        Goto(s, t, Relist(pc.c, pc.sb)).(
          sbs := s.sbs[pc.sb := Sb(d.cls, Anchor(pc.rest.b.i, pc.was.count - |pc.got|, Partial),
                                   Remaining(d.chain, pc.first.count, |pc.got|), d.holder, 0)],
          caches := s.caches[Key(t, pc.c) := Cache(At(pc.got[0]), |pc.got|, Doubled(k.max, pc.c), pc.got)],
          place := Moved(s.place, Elems(pc.got), Cached(t, pc.c)))
  }

  // Line 444 and the branch on the number of free blocks
  function DoTakeLoad(s: State, t: nat, c: nat, sb: nat): State
    requires t < |s.th| && Key(t, c) in s.caches
  {
    if sb !in s.sbs then s.(fault := true)
    else
      var d := s.sbs[sb];
      if d.anchor.count <= s.caches[Key(t, c)].max then Goto(s, t, TakeCas(c, sb, d.anchor))
      else if d.anchor.state.Empty? then DoRetire(s, t, sb, FillPop(c))
      else Goto(s, t, SplitWalk(c, sb, d.anchor, [], At(Blk(sb, d.anchor.avail))))
  }

  // The take-all loop (lines 452-472); `assert(oldanchor.state == SB_PARTIAL)` is a fault otherwise
  function DoTakeCas(s: State, t: nat, pc: Pc, spurious: bool): State
    requires t < |s.th| && pc.TakeCas? && Key(t, pc.c) in s.caches
  {
    if pc.sb !in s.sbs then s.(fault := true)
    else if pc.was.state.Empty? then DoRetire(s, t, pc.sb, FillPop(pc.c))
    else if pc.was.state.Full? then s.(fault := true)
    else
      var d, k := s.sbs[pc.sb], s.caches[Key(t, pc.c)];
      if d.anchor != pc.was || spurious then Goto(s, t, TakeCas(pc.c, pc.sb, d.anchor))
      else
        Goto(s, t, Pop(pc.c)).(
          sbs := s.sbs[pc.sb := Sb(d.cls, Anchor(MaxCount(pc.c), 0, Full), [], Nobody, 0)],
          caches := s.caches[Key(t, pc.c) :=
                      Cache(At(Blk(pc.sb, pc.was.avail)), pc.was.count, k.max, Blks(pc.sb, d.chain))],
          place := Moved(s.place, Elems(Blks(pc.sb, d.chain)), Cached(t, pc.c)))
  }

  function NewMem(mem: map<Blk, Ptr>, sb: nat, n: nat, m: nat, junk: Ptr): map<Blk, Ptr>
    requires 0 < m <= n
  {
    var linked := mem + (map i {:trigger Blk(sb, i)} | 0 <= i < n ::
                           Blk(sb, i) := if i + 1 < n then At(Blk(sb, i + 1)) else junk);
    if m == n then linked else linked[Blk(sb, m - 1) := NIL]
  }

  function NewPlace(place: map<Blk, Place>, sb: nat, n: nat, m: nat, p: Place): map<Blk, Place> {
    place + (map i {:trigger Blk(sb, i)} | 0 <= i < n :: Blk(sb, i) := if i < m then p else Free)
  }

  // malloc_from_newsb (lines 524-610): either the whole new superblock or its first Maxsize blocks
  // go to the cache; `junk` is what the last block's link word happens to hold
  function DoFillNew(s: State, t: nat, c: nat, sb: nat, junk: Ptr): State
    requires t < |s.th| && Key(t, c) in s.caches
  {
    var n, k := MaxCount(c), s.caches[Key(t, c)];
    var m := if k.max >= n then n else k.max;
    if m == 0 then s.(fault := true)
    else
      Goto(s, t, if m == n then Pop(c) else Relist(c, sb)).(
        mem := NewMem(s.mem, sb, n, m, junk),
        sbs := s.sbs[sb := if m == n then Sb(c, Anchor(n, 0, Full), [], Nobody, 0)
                           else Sb(c, Anchor(m, n - m, Partial), seq(n - m, i requires 0 <= i => m + i), Held(t), 0)],
        caches := s.caches[Key(t, c) :=
                    Cache(At(Blk(sb, 0)), m, Doubled(k.max, c), seq(m, i requires 0 <= i => Blk(sb, i)))],
        place := NewPlace(s.place, sb, n, m, Cached(t, c)))
  }

  function DoStep(s: State, t: nat, spurious: bool, sbNew: nat, junk: Ptr): State
    requires Shape(s) && t < |s.th| && !s.th[t].Idle?
  {
    var pc := s.th[t];
    match pc
    case Pop(c) => DoPop(s, t, c)
    case Flush(c, pend) =>
      if s.caches[Key(t, c)].size > 0 then DoDetach(s, t, c, pend)
      else if pend.Some? then DoPush(s, t, c, pend.value)
      else Goto(s, t, Idle)
    case FlushLoad(c, pend, run) =>
      if run == [] || run[0].sb !in s.sbs then s.(fault := true)
      else Goto(s, t, FlushWrite(c, pend, run, s.sbs[run[0].sb].anchor))
    case FlushWrite(c, pend, run, was) =>
      if run == [] then s.(fault := true)
      else Goto(s, t, FlushCas(c, pend, run, was))
           .(mem := s.mem[run[|run| - 1] := At(Blk(run[0].sb, was.avail))])
    case FlushCas(_, _, _, _) => DoFlushCas(s, t, pc, spurious)
    case FlushRetire(c, pend, sb) => DoRetire(s, t, sb, Flush(c, pend))
    case FlushList(c, pend, sb) => DoList(s, t, c, sb, Flush(c, pend))
    case FillPop(c) => DoFillPop(s, t, c)
    case FillNew(c) => DoFillNew(s, t, c, sbNew, junk)
    case TakeLoad(c, sb) => DoTakeLoad(s, t, c, sb)
    case TakeCas(_, _, _) => DoTakeCas(s, t, pc, spurious)
    case SplitWalk(_, _, _, _, _) => DoSplitWalk(s, t, pc)
    case SplitCas(_, _, _, _, _, _) => DoSplitCas(s, t, pc, spurious)
    case Relist(c, sb) => DoList(s, t, c, sb, Pop(c))
  }

  function Do(s: State, a: Act): State
    requires Shape(s) && Allowed(s, a)
  {
    match a
    case Malloc(t, c) => Goto(s, t, if s.caches[Key(t, c)].size == 0 then FillPop(c) else Pop(c))
    case Release(t, b) =>
      if b.sb !in s.sbs || s.sbs[b.sb].cls >= NLIST then s.(fault := true)
      else
        var c := s.sbs[b.sb].cls;
        if s.caches[Key(t, c)].size > s.caches[Key(t, c)].max then
          Goto(s, t, Flush(c, Some(b))).(place := s.place[b := Pending(t)])
        else DoPush(s, t, c, b)
    case FlushAll(t, c) => Goto(s, t, Flush(c, None))
    case Step(t, spurious, sbNew, junk) => DoStep(s, t, spurious, sbNew, junk)
    case Write(b, w) => s.(mem := s.mem[b := w])
  }

  // ---------------------------------------------------------------------------------------
  // Invariant
  // ---------------------------------------------------------------------------------------

  predicate NoDup<T(==)>(q: seq<T>) {
    forall i, j :: 0 <= i < j < |q| ==> q[i] != q[j]
  }

  predicate LinkedList(mem: map<Blk, Ptr>, head: Ptr, list: seq<Blk>) {
    && (list != [] ==> head == At(list[0]))
    && (forall k {:trigger Link(mem, list[k])} :: 0 <= k < |list| - 1 ==> Link(mem, list[k]) == At(list[k + 1]))
  }

  predicate In(s: State, b: Blk, p: Place) {
    b in s.place && s.place[b] == p
  }

  predicate ClassIs(s: State, sb: nat, c: nat) {
    sb in s.sbs && s.sbs[sb].cls == c
  }

  // The anchor describes its chain: none, some or all of the superblock's blocks are free.
  predicate AnchorOk(a: Anchor, chain: seq<nat>, n: nat) {
    match a.state
    case Full => chain == [] && a.count == 0
    case Partial => 0 < |chain| < n && a.count == |chain| && a.avail == chain[0]
    case Empty => 0 < |chain| == n && a.count == n - 1 && a.avail == chain[0]
  }

  // The chain is linked but for the place where a split has cut it.
  ghost predicate ChainOk(s: State, sb: nat, chain: seq<nat>, cut: nat) {
    && NoDup(chain)
    && (forall k :: 0 <= k < |chain| ==> In(s, Blk(sb, chain[k]), Free))
    && (forall k {:trigger Link(s.mem, Blk(sb, chain[k]))} :: 0 <= k < |chain| - 1 && |chain| - 1 - k != cut ==>
          Link(s.mem, Blk(sb, chain[k])) == At(Blk(sb, chain[k + 1])))
    && (forall i: nat {:trigger Blk(sb, i)} :: In(s, Blk(sb, i), Free) ==> i in chain)
  }

  ghost predicate SbInv(s: State, sb: nat)
    requires sb in s.sbs
  {
    var d := s.sbs[sb];
    && d.cls < NLIST && AnchorOk(d.anchor, d.chain, MaxCount(d.cls)) && ChainOk(s, sb, d.chain, d.cut)
    && (d.anchor.state.Full? <==> d.holder.Nobody?) && (!d.holder.Held? ==> d.cut == 0)
    && (forall i: nat {:trigger Blk(sb, i)} :: i < MaxCount(d.cls) ==> Blk(sb, i) in s.place)
  }

  ghost predicate PlaceInv(s: State) {
    && (forall b {:trigger s.place[b]} {:trigger b in s.place} :: b in s.place ==>
          b.sb in s.sbs && b.i < MaxCount(s.sbs[b.sb].cls))
    && (forall sb :: sb in s.gone ==> sb !in s.sbs)
  }

  ghost predicate CacheInv(s: State, t: nat, c: nat) {
    && Key(t, c) in s.caches
    && var k := s.caches[Key(t, c)];
    && |k.list| == k.size && 1 <= k.max <= MaxCount(c)
    && LinkedList(s.mem, k.head, k.list) && NoDup(k.list)
    && (forall j :: 0 <= j < |k.list| ==> In(s, k.list[j], Cached(t, c)) && ClassIs(s, k.list[j].sb, c))
    && (forall b :: In(s, b, Cached(t, c)) ==> b in k.list)
  }

  ghost predicate PartInv(s: State, c: nat)
    requires c < |s.part|
  {
    && NoDup(s.part[c])
    && (forall j :: 0 <= j < |s.part[c]| ==>
          ClassIs(s, s.part[c][j], c) && s.sbs[s.part[c][j]].holder == Listed)
  }

  predicate HasRun(pc: Pc) { pc.FlushLoad? || pc.FlushWrite? || pc.FlushCas? }

  predicate HasPend(pc: Pc) {
    pc.Flush? || HasRun(pc) || pc.FlushRetire? || pc.FlushList?
  }

  predicate Holds(pc: Pc) {
    pc.FlushRetire? || pc.FlushList? || pc.TakeLoad? || pc.TakeCas? || Splits(pc) || pc.Relist?
  }

  predicate Splits(pc: Pc) {
    pc.SplitWalk? || pc.SplitCas?
  }

  predicate Filling(pc: Pc) {
    pc.FillPop? || pc.FillNew? || pc.TakeLoad? || pc.TakeCas? || Splits(pc)
  }

  function CutBy(pc: Pc): nat {
    if pc.SplitCas? && |pc.got| < pc.first.count then pc.first.count - |pc.got| else 0
  }

  // Who is responsible for a superblock that has free blocks: its partial list or one thread.
  ghost predicate HolderInv(s: State, sb: nat)
    requires sb in s.sbs
  {
    match s.sbs[sb].holder
    case Nobody => true
    case Listed => s.sbs[sb].cls < |s.part| && sb in s.part[s.sbs[sb].cls]
    case Held(t) => t < |s.th| && Holds(s.th[t]) && s.th[t].sb == sb
  }

  ghost predicate RunOk(s: State, t: nat, c: nat, run: seq<Blk>) {
    && run != [] && NoDup(run) && ClassIs(s, run[0].sb, c)
    && (forall j :: 0 <= j < |run| ==> run[j].sb == run[0].sb && In(s, run[j], Moving(t)))
    && (forall k {:trigger Link(s.mem, run[k])} :: 0 <= k < |run| - 1 ==> Link(s.mem, run[k]) == At(run[k + 1]))
  }

  // The blocks a split has walked over are the first ones of what the chain was at line 444; since then
  // others may have put blocks in front of it.
  predicate SplitOk(d: Sb, pc: Pc)
    requires Splits(pc)
  {
    && pc.first.state.Partial? && |pc.got| < pc.first.count <= |d.chain| && pc.first.count < MaxCount(d.cls)
    && var off := |d.chain| - pc.first.count;
    && pc.first.avail == d.chain[off] && pc.got == Blks(pc.sb, d.chain[off..off + |pc.got|])
    && pc.rest == At(Blk(pc.sb, d.chain[off + |pc.got|]))
    && (pc.SplitCas? ==> pc.got != [] && pc.was.count >= pc.first.count)
  }

  ghost predicate HeldOk(s: State, t: nat, pc: Pc) {
    Holds(pc) ==>
      && ClassIs(s, pc.sb, pc.c) && s.sbs[pc.sb].holder == Held(t)
      && s.sbs[pc.sb].cut == CutBy(pc) && (Splits(pc) ==> SplitOk(s.sbs[pc.sb], pc))
      && (pc.FlushRetire? ==> s.sbs[pc.sb].anchor.state.Empty?)
      && (pc.TakeCas? ==> !pc.was.state.Full? && (pc.was.state.Empty? ==> s.sbs[pc.sb].anchor.state.Empty?))
  }

  ghost predicate MovingOk(s: State, t: nat, pc: Pc) {
    && (HasRun(pc) ==> RunOk(s, t, pc.c, pc.run))
    && (pc.FlushCas? ==> Link(s.mem, pc.run[|pc.run| - 1]) == At(Blk(pc.run[0].sb, pc.was.avail)))
    && (HasPend(pc) && pc.pend.Some? ==> In(s, pc.pend.value, Pending(t)) && ClassIs(s, pc.pend.value.sb, pc.c))
    && (forall b :: In(s, b, Moving(t)) ==> HasRun(pc) && b in pc.run)
    && (forall b :: In(s, b, Pending(t)) ==> HasPend(pc) && pc.pend == Some(b))
  }

  predicate CacheUse(s: State, t: nat, pc: Pc) {
    !pc.Idle? ==>
      && pc.c < NLIST && Key(t, pc.c) in s.caches
      && (Filling(pc) ==> s.caches[Key(t, pc.c)].size == 0)
      && (pc.Pop? || pc.Relist? ==> s.caches[Key(t, pc.c)].size > 0)
      && (pc.SplitWalk? ==> |pc.got| <= s.caches[Key(t, pc.c)].max < pc.first.count)
      && (pc.SplitCas? ==> |pc.got| == s.caches[Key(t, pc.c)].max)
  }

  ghost predicate PcInv(s: State, t: nat, pc: Pc) {
    HeldOk(s, t, pc) && MovingOk(s, t, pc) && CacheUse(s, t, pc)
  }

  ghost predicate Inv(s: State) {
    && Shape(s) && !s.fault && PlaceInv(s)
    && (forall sb {:trigger SbInv(s, sb)} {:trigger HolderInv(s, sb)} :: sb in s.sbs ==> SbInv(s, sb) && HolderInv(s, sb))
    && (forall t, c {:trigger CacheInv(s, t, c)} :: 0 <= t < |s.th| && 0 <= c < NLIST ==> CacheInv(s, t, c))
    && (forall c :: 0 <= c < NLIST ==> PartInv(s, c))
    && (forall t :: 0 <= t < |s.th| ==> PcInv(s, t, s.th[t]))
  }

  // ---------------------------------------------------------------------------------------
  // Interference
  // ---------------------------------------------------------------------------------------

  // Places a step of thread t on its cache of class c may take blocks from or put them in.
  predicate Mine(p: Place, t: nat, c: nat) {
    p == Free || p == Live || p == Cached(t, c) || p == Moving(t) || p == Pending(t)
  }

  predicate SameBlock(s: State, s': State, b: Blk) {
    && (b in s.place <==> b in s'.place)
    && (b in s.place ==> s.place[b] == s'.place[b] && Link(s.mem, b) == Link(s'.mem, b))
  }

  predicate OwnBlock(s: State, s': State, b: Blk, t: nat, c: nat, x: int) {
    && (b.sb != x ==> (b in s.place <==> b in s'.place))
    && (b in s.place ==> Mine(s.place[b], t, c) && (s.place[b].Free? ==> b.sb == x))
    && (b in s'.place ==> Mine(s'.place[b], t, c) && (s'.place[b].Free? ==> b.sb == x))
  }

  ghost predicate Blocks(s: State, s': State, t: nat, c: nat, x: int) {
    forall b {:trigger SameBlock(s, s', b)} :: SameBlock(s, s', b) || OwnBlock(s, s', b, t, c, x)
  }

  predicate EndsWith(q: seq<nat>, r: seq<nat>) {
    |r| <= |q| && q[|q| - |r|..] == r
  }

  // x is the one superblock whose descriptor the step may change.
  ghost predicate Superblocks(s: State, s': State, t: nat, x: int) {
    && (forall sb :: sb != x ==> (sb in s.sbs <==> sb in s'.sbs) && (sb in s.sbs ==> s.sbs[sb] == s'.sbs[sb]))
    && (x in s.sbs && x in s'.sbs ==>
          && s'.sbs[x].cls == s.sbs[x].cls
          && (forall u :: u != t && s.sbs[x].holder == Held(u) ==>
                s'.sbs[x].holder == Held(u) && s'.sbs[x].cut == s.sbs[x].cut && EndsWith(s'.sbs[x].chain, s.sbs[x].chain))
          && (s.sbs[x].holder != Held(t) && s.sbs[x].anchor.state.Empty? ==> s'.sbs[x].anchor == s.sbs[x].anchor))
    && (x in s.sbs && x !in s'.sbs ==>
          s.sbs[x].holder == Held(t) && forall b :: b in s.place && b.sb == x ==> s.place[b].Free?)
  }

  ghost predicate Threads(s: State, s': State, t: nat, c: nat) {
    && |s'.th| == |s.th|
    && (forall u :: 0 <= u < |s.th| && u != t ==> s'.th[u] == s.th[u])
    && s'.caches.Keys == s.caches.Keys
    && (forall k :: k in s.caches && k != Key(t, c) ==> s'.caches[k] == s.caches[k])
  }

  ghost predicate Evolves(s: State, s': State, t: nat, c: nat, x: int) {
    Blocks(s, s', t, c, x) && Superblocks(s, s', t, x) && Threads(s, s', t, c)
  }

  // A place that is not Mine keeps its blocks, their links and their classes.
  lemma KeptPlace(s: State, s': State, t: nat, c: nat, x: int, b: Blk, p: Place)
    requires Evolves(s, s', t, c, x) && !Mine(p, t, c)
    ensures In(s, b, p) <==> In(s', b, p)
    ensures In(s, b, p) ==> Link(s.mem, b) == Link(s'.mem, b)
    ensures In(s, b, p) && b.sb in s.sbs ==> b.sb in s'.sbs && s'.sbs[b.sb].cls == s.sbs[b.sb].cls
  {
    assert SameBlock(s, s', b) || OwnBlock(s, s', b, t, c, x);
  }

  lemma OtherCache(s: State, s': State, t: nat, c: nat, x: int, u: nat, e: nat)
    requires Evolves(s, s', t, c, x) && CacheInv(s, u, e) && Key(u, e) != Key(t, c)
    ensures CacheInv(s', u, e)
  {
    hide Evolves, MaxCount;
    assert Key(u, e) in s'.caches && s'.caches[Key(u, e)] == s.caches[Key(u, e)] by { OtherKey(s, s', t, c, x, Key(u, e)); }
    forall b ensures In(s, b, Cached(u, e)) <==> In(s', b, Cached(u, e))
             ensures In(s, b, Cached(u, e)) ==> Link(s.mem, b) == Link(s'.mem, b)
             ensures In(s, b, Cached(u, e)) && b.sb in s.sbs ==> b.sb in s'.sbs && s'.sbs[b.sb].cls == s.sbs[b.sb].cls
    {
      KeptPlace(s, s', t, c, x, b, Cached(u, e));
    }
  }

  lemma OtherKey(s: State, s': State, t: nat, c: nat, x: int, k: Key)
    requires Evolves(s, s', t, c, x) && k in s.caches && k != Key(t, c)
    ensures k in s'.caches && s'.caches[k] == s.caches[k]
  {
  }

  lemma OtherHeld(s: State, s': State, t: nat, c: nat, x: int, u: nat)
    requires Evolves(s, s', t, c, x) && u != t && u < |s.th| && HeldOk(s, u, s.th[u])
    ensures HeldOk(s', u, s.th[u])
  {
    hide MaxCount, Blocks, Threads, SplitOk;
    var pc := s.th[u];
    if Splits(pc) && pc.sb == x { SplitStable(s.sbs[x], s'.sbs[x], pc); }
  }

  lemma SplitStable(d: Sb, d': Sb, pc: Pc)
    requires Splits(pc) && SplitOk(d, pc) && d'.cls == d.cls && EndsWith(d'.chain, d.chain)
    ensures SplitOk(d', pc)
  {
    hide MaxCount;
    var n, m, off, off' := pc.first.count, |pc.got|, |d.chain| - pc.first.count, |d'.chain| - pc.first.count;
    SuffixParts(d'.chain, d.chain, off, m);
  }

  lemma SuffixParts(q: seq<nat>, r: seq<nat>, off: nat, m: nat)
    requires EndsWith(q, r) && off + m < |r|
    ensures var off' := |q| - |r| + off; q[off'..off' + m] == r[off..off + m] && q[off'] == r[off] && q[off' + m] == r[off + m]
  {
    var d := |q| - |r|;
    assert q == q[..d] + r;
    assert q[d + off..d + off + m] == r[off..off + m];
  }

  lemma OtherMoving(s: State, s': State, t: nat, c: nat, x: int, u: nat, pc: Pc)
    requires Evolves(s, s', t, c, x) && u != t && MovingOk(s, u, pc)
    ensures MovingOk(s', u, pc)
  {
    hide MaxCount, Evolves;
    forall b, p | p == Moving(u) || p == Pending(u)
      ensures In(s, b, p) <==> In(s', b, p)
      ensures In(s, b, p) ==> Link(s.mem, b) == Link(s'.mem, b)
      ensures In(s, b, p) && b.sb in s.sbs ==> b.sb in s'.sbs && s'.sbs[b.sb].cls == s.sbs[b.sb].cls
    {
      KeptPlace(s, s', t, c, x, b, p);
    }
  }

  lemma OtherUse(s: State, s': State, t: nat, c: nat, x: int, u: nat, pc: Pc)
    requires Evolves(s, s', t, c, x) && u != t && CacheUse(s, u, pc)
    ensures CacheUse(s', u, pc)
  {
    hide Evolves;
    if !pc.Idle? { OtherKey(s, s', t, c, x, Key(u, pc.c)); }
  }

  lemma OtherPc(s: State, s': State, t: nat, c: nat, x: int, u: nat)
    requires Evolves(s, s', t, c, x) && u != t && u < |s.th| && PcInv(s, u, s.th[u])
    ensures u < |s'.th| && PcInv(s', u, s.th[u]) && s'.th[u] == s.th[u]
  {
    hide MaxCount, Blocks, Superblocks, HeldOk, MovingOk, CacheUse;
    OtherHeld(s, s', t, c, x, u);
    OtherMoving(s, s', t, c, x, u, s.th[u]);
    OtherUse(s, s', t, c, x, u, s.th[u]);
  }

  lemma OtherSb(s: State, s': State, t: nat, c: nat, x: int, sb: nat)
    requires Evolves(s, s', t, c, x) && sb != x && sb in s.sbs && SbInv(s, sb)
    ensures sb in s'.sbs && SbInv(s', sb)
  {
    hide MaxCount;
    assert s'.sbs[sb] == s.sbs[sb];
    forall i: nat ensures In(s, Blk(sb, i), Free) <==> In(s', Blk(sb, i), Free)
                  ensures In(s, Blk(sb, i), Free) ==> Link(s.mem, Blk(sb, i)) == Link(s'.mem, Blk(sb, i))
                  ensures Blk(sb, i) in s.place ==> Blk(sb, i) in s'.place
    {
      assert SameBlock(s, s', Blk(sb, i)) || OwnBlock(s, s', Blk(sb, i), t, c, x);
    }
  }

  // The partial lists and the listed superblocks are as before, up to x.
  ghost predicate PartKept(s: State, s': State, x: int) {
    && s'.part == s.part
    && (x in s.sbs && s.sbs[x].holder.Listed? ==> x in s'.sbs && s'.sbs[x].holder.Listed?)
  }

  lemma KeptPart(s: State, s': State, t: nat, c: nat, x: int, e: nat)
    requires Evolves(s, s', t, c, x) && PartKept(s, s', x) && e < |s.part| && PartInv(s, e)
    ensures PartInv(s', e)
  {
  }

  // The step of t leaves the other superblocks' holders justified.
  ghost predicate HoldersKept(s: State, s': State, t: nat, x: int)
    requires t < |s.th| && t < |s'.th|
  {
    && (Holds(s.th[t]) ==> s.th[t].sb == x || (Holds(s'.th[t]) && s'.th[t].sb == s.th[t].sb))
    && |s'.part| == |s.part|
    && (forall e, sb :: 0 <= e < |s.part| && sb != x && sb in s.part[e] ==> sb in s'.part[e])
  }

  lemma OtherHolder(s: State, s': State, t: nat, c: nat, x: int, sb: nat)
    requires Evolves(s, s', t, c, x) && t < |s.th| && HoldersKept(s, s', t, x)
    requires sb in s.sbs && sb != x && HolderInv(s, sb)
    ensures sb in s'.sbs && HolderInv(s', sb)
  {
  }

  ghost predicate StepOk(s: State, s': State, t: nat, c: nat, x: int)
    requires Shape(s)
  {
    && Evolves(s, s', t, c, x) && t < |s.th| && t < |s'.th| && c < NLIST && HoldersKept(s, s', t, x)
    && !s'.fault && PlaceInv(s')
    && (s'.th[t].Idle? || s'.th[t].c < NLIST)
    && (x in s'.sbs ==> SbInv(s', x) && HolderInv(s', x))
    && CacheInv(s', t, c) && PcInv(s', t, s'.th[t])
    && (forall e {:trigger PartInv(s', e)} :: 0 <= e < NLIST ==> PartInv(s', e))
  }

  lemma KeptShape(s: State, s': State, t: nat, c: nat, x: int)
    requires Shape(s) && StepOk(s, s', t, c, x)
    ensures Shape(s') && |s'.th| == |s.th|
    ensures forall sb :: sb in s'.sbs && sb != x ==> sb in s.sbs
  {
  }

  lemma Conclude(s: State, s': State, t: nat, c: nat, x: int)
    requires Inv(s) && StepOk(s, s', t, c, x)
    ensures Inv(s')
  {
    KeptShape(s, s', t, c, x);
    hide Evolves, Shape, PlaceInv, CacheInv, PcInv, PartInv, SbInv, HolderInv, HoldersKept, MaxCount;
    forall sb | sb in s'.sbs ensures SbInv(s', sb) && HolderInv(s', sb) {
      if sb != x {
        assert SbInv(s, sb) && HolderInv(s, sb);
        OtherSb(s, s', t, c, x, sb);
        OtherHolder(s, s', t, c, x, sb);
      }
    }
    forall u, e | 0 <= u < |s'.th| && 0 <= e < NLIST ensures CacheInv(s', u, e) {
      assert CacheInv(s, u, e);
      if Key(u, e) != Key(t, c) { OtherCache(s, s', t, c, x, u, e); }
    }
    forall u | 0 <= u < |s'.th| ensures PcInv(s', u, s'.th[u]) {
      if u != t { OtherPc(s, s', t, c, x, u); }
    }
  }

  // ---------------------------------------------------------------------------------------
  // Every step keeps the invariant
  // ---------------------------------------------------------------------------------------

  // Instances of the invariant a step of t on class c needs.
  lemma Have(s: State, t: nat, c: nat)
    requires Inv(s) && t < |s.th| && c < NLIST
    ensures PlaceInv(s) && CacheInv(s, t, c) && PcInv(s, t, s.th[t]) && PartInv(s, c)
  {
  }

  lemma HavePc(s: State, t: nat)
    requires Inv(s) && t < |s.th|
    ensures Shape(s) && PcInv(s, t, s.th[t])
  {
  }

  lemma HaveBlock(s: State, t: nat, b: Blk)
    requires Inv(s) && Allowed(s, Release(t, b))
    ensures b.sb in s.sbs && SbInv(s, b.sb) && s.sbs[b.sb].cls < NLIST && Key(t, s.sbs[b.sb].cls) in s.caches
  {
    assert SbInv(s, b.sb);
  }

  lemma KeptParts(s: State, s': State, t: nat, c: nat, x: int)
    requires Inv(s) && Evolves(s, s', t, c, x) && PartKept(s, s', x)
    ensures forall e {:trigger PartInv(s', e)} :: 0 <= e < NLIST ==> PartInv(s', e)
  {
    hide Evolves, PlaceInv, CacheInv, PcInv, PartInv, SbInv, HolderInv;
    forall e | 0 <= e < NLIST ensures PartInv(s', e) {
      KeptPart(s, s', t, c, x, e);
    }
  }

  lemma PopCache(s: State, t: nat, c: nat, s': State)
    requires CacheInv(s, t, c) && t < |s.th| && s.caches[Key(t, c)].size > 0 && s' == DoPop(s, t, c)
    ensures !s'.fault || s.fault
    ensures CacheInv(s', t, c) && In(s, s.caches[Key(t, c)].list[0], Cached(t, c))
    ensures s'.place == s.place[s.caches[Key(t, c)].list[0] := Live]
    ensures s' == Goto(s, t, Idle).(caches := s'.caches, place := s'.place)
  {
    hide MaxCount;
    var k, k' := s.caches[Key(t, c)], s'.caches[Key(t, c)];
    assert k'.list == k.list[1..];
    forall b | In(s', b, Cached(t, c)) ensures b in k'.list {
      assert b in k.list && b != k.list[0];
      assert b in k.list[1..];
    }
  }

  // A step that changes neither blocks nor superblocks nor caches.
  lemma JustMoves(s: State, t: nat, pc: Pc)
    requires Inv(s) && t < |s.th| && PcInv(s, t, pc)
    requires Holds(s.th[t]) ==> Holds(pc) && pc.sb == s.th[t].sb
    ensures Inv(Goto(s, t, pc))
  {
    var s' := Goto(s, t, pc);
    var c := if pc.Idle? then 0 else pc.c;
    Have(s, t, c);
    assert Evolves(s, s', t, c, -1) && HoldersKept(s, s', t, -1) && PlaceInv(s') && CacheInv(s', t, c) && PcInv(s', t, pc) by {
      MoveParts(s, t, pc, c);
    }
    hide Evolves, PlaceInv, CacheInv, PcInv, PartInv, SbInv, HolderInv, HoldersKept;
    KeptParts(s, s', t, c, -1);
    Conclude(s, s', t, c, -1);
  }

  lemma MoveParts(s: State, t: nat, pc: Pc, c: nat)
    requires t < |s.th| && PcInv(s, t, pc) && PlaceInv(s) && CacheInv(s, t, c)
    requires Holds(s.th[t]) ==> Holds(pc) && pc.sb == s.th[t].sb
    ensures var s' := Goto(s, t, pc);
            && Evolves(s, s', t, c, -1) && HoldersKept(s, s', t, -1)
            && PlaceInv(s') && CacheInv(s', t, c) && PcInv(s', t, pc)
  {
    hide MaxCount;
    var s' := Goto(s, t, pc);
    assert forall b, p {:trigger In(s', b, p)} :: In(s', b, p) <==> In(s, b, p);
    assert PcInv(s', t, pc);
    assert CacheInv(s', t, c);
    hide PcInv, CacheInv;
    assert forall b {:trigger SameBlock(s, s', b)} :: SameBlock(s, s', b);
  }

  lemma Pops(s: State, t: nat)
    requires Inv(s) && t < |s.th| && s.th[t].Pop?
    ensures Inv(DoPop(s, t, s.th[t].c))
  {
    var c := s.th[t].c;
    var s' := DoPop(s, t, c);
    Have(s, t, c);
    PopCache(s, t, c, s');
    PopParts(s, t, c, s', s.caches[Key(t, c)].list[0]);
    hide Evolves, PlaceInv, CacheInv, PcInv, PartInv, SbInv, HolderInv, HoldersKept;
    KeptParts(s, s', t, c, -1);
    Conclude(s, s', t, c, -1);
  }

  // A step that moves blocks between caches, users and threads, without free blocks.
  lemma Transfer(s: State, s': State, t: nat, c: nat)
    requires Threads(s, s', t, c) && PlaceInv(s)
    requires s'.sbs == s.sbs && s'.gone == s.gone && s'.place.Keys == s.place.Keys
    requires forall b {:trigger SameBlock(s, s', b)} :: SameBlock(s, s', b) || OwnBlock(s, s', b, t, c, -1)
    ensures Evolves(s, s', t, c, -1) && PlaceInv(s')
  {
  }

  lemma PopParts(s: State, t: nat, c: nat, s': State, b: Blk)
    requires t < |s.th| && s.th[t].Pop? && PcInv(s, t, s.th[t]) && PlaceInv(s) && In(s, b, Cached(t, c))
    requires s' == Goto(s, t, Idle).(caches := s'.caches, place := s.place[b := Live])
    requires Threads(s, s', t, c)
    ensures Evolves(s, s', t, c, -1) && HoldersKept(s, s', t, -1) && PlaceInv(s') && PcInv(s', t, Idle)
  {
    hide MaxCount, Evolves, PlaceInv;
    Transfer(s, s', t, c);
    assert forall b', p {:trigger In(s', b', p)} :: In(s', b', p) ==> In(s, b', p) || p == Live;
  }

  lemma PushCache(s: State, t: nat, c: nat, b: Blk, s': State)
    requires CacheInv(s, t, c) && t < |s.th| && s' == DoPush(s, t, c, b) && b in s.place
    requires s.place[b].Live? || s.place[b].Pending?
    requires ClassIs(s, b.sb, c)
    ensures CacheInv(s', t, c)
  {
    hide MaxCount;
    var k, k' := s.caches[Key(t, c)], s'.caches[Key(t, c)];
    assert k'.list == [b] + k.list;
    assert forall j :: 0 <= j < |k.list| ==> In(s, k.list[j], Cached(t, c)) && k.list[j] != b;
    forall j | 0 <= j < |k'.list| - 1 ensures Link(s'.mem, k'.list[j]) == At(k'.list[j + 1]) {
      if j > 0 { assert Link(s.mem, k.list[j - 1]) == At(k.list[j - 1 + 1]); }
    }
    forall b' | In(s', b', Cached(t, c)) ensures b' in k'.list {
      if b' != b { assert In(s, b', Cached(t, c)); }
    }
  }

  lemma PushParts(s: State, t: nat, c: nat, b: Blk, s': State)
    requires t < |s.th| && PcInv(s, t, s.th[t]) && PlaceInv(s) && Key(t, c) in s.caches && s' == DoPush(s, t, c, b)
    requires || (s.th[t].Idle? && In(s, b, Live))
             || (s.th[t].Flush? && s.th[t].pend == Some(b) && In(s, b, Pending(t)))
    ensures Evolves(s, s', t, c, -1) && HoldersKept(s, s', t, -1) && PlaceInv(s') && PcInv(s', t, Idle)
  {
    hide MaxCount, Evolves, PlaceInv, PcInv;
    Transfer(s, s', t, c);
    PushPc(s, t, c, b, s');
  }

  lemma PushPc(s: State, t: nat, c: nat, b: Blk, s': State)
    requires t < |s.th| && PcInv(s, t, s.th[t]) && Key(t, c) in s.caches && s' == DoPush(s, t, c, b)
    requires || (s.th[t].Idle? && In(s, b, Live))
             || (s.th[t].Flush? && s.th[t].pend == Some(b) && In(s, b, Pending(t)))
    ensures PcInv(s', t, Idle)
  {
    hide MaxCount;
    assert forall b', p {:trigger In(s', b', p)} :: In(s', b', p) ==> (b' != b && In(s, b', p)) || p == Cached(t, c);
  }

  lemma Pushes(s: State, t: nat, c: nat, b: Blk)
    requires Inv(s) && t < |s.th| && c < NLIST && ClassIs(s, b.sb, c)
    requires || (s.th[t].Idle? && In(s, b, Live))
             || (s.th[t].Flush? && s.th[t].pend == Some(b) && In(s, b, Pending(t)))
    ensures Inv(DoPush(s, t, c, b))
  {
    var s' := DoPush(s, t, c, b);
    Have(s, t, c);
    PushCache(s, t, c, b, s');
    PushParts(s, t, c, b, s');
    hide Evolves, PlaceInv, CacheInv, PcInv, PartInv, SbInv, HolderInv, HoldersKept;
    KeptParts(s, s', t, c, -1);
    Conclude(s, s', t, c, -1);
  }

  lemma Delays(s: State, t: nat, c: nat, b: Blk)
    requires Inv(s) && t < |s.th| && s.th[t].Idle? && c < NLIST && In(s, b, Live) && ClassIs(s, b.sb, c)
    ensures Inv(Goto(s, t, Flush(c, Some(b))).(place := s.place[b := Pending(t)]))
  {
    var s' := Goto(s, t, Flush(c, Some(b))).(place := s.place[b := Pending(t)]);
    Have(s, t, c);
    DelayParts(s, t, c, b, s');
    hide Evolves, PlaceInv, CacheInv, PcInv, PartInv, SbInv, HolderInv, HoldersKept;
    KeptParts(s, s', t, c, -1);
    Conclude(s, s', t, c, -1);
  }

  lemma DelayParts(s: State, t: nat, c: nat, b: Blk, s': State)
    requires t < |s.th| && s.th[t].Idle? && PcInv(s, t, s.th[t]) && PlaceInv(s) && CacheInv(s, t, c)
    requires c < NLIST && In(s, b, Live) && ClassIs(s, b.sb, c)
    requires s' == Goto(s, t, Flush(c, Some(b))).(place := s.place[b := Pending(t)])
    ensures Evolves(s, s', t, c, -1) && HoldersKept(s, s', t, -1) && PlaceInv(s') && CacheInv(s', t, c)
    ensures PcInv(s', t, s'.th[t])
  {
    hide MaxCount, Evolves, PlaceInv;
    Transfer(s, s', t, c);
    assert forall b', p {:trigger In(s', b', p)} :: In(s', b', p) <==> (b' != b && In(s, b', p)) || (b' == b && p == Pending(t));
  }

  // Gathering follows the cache list.
  lemma {:induction false} GatherPrefix(mem: map<Blk, Ptr>, list: seq<Blk>)
    requires list != [] && (forall k :: 0 <= k < |list| - 1 ==> Link(mem, list[k]) == At(list[k + 1]))
    ensures var run := Gather(mem, list[0], |list|);
            0 < |run| <= |list| && run == list[..|run|] && forall j :: 0 <= j < |run| ==> run[j].sb == list[0].sb
    decreases |list|
  {
    var run := Gather(mem, list[0], |list|);
    if |list| == 1 {
      assert run == [list[0]];
    } else {
      assert Link(mem, list[0]) == At(list[1]);
      if list[1].sb == list[0].sb {
        var rest := list[1..];
        assert rest[0] == list[1];
        assert forall k :: 0 <= k < |rest| - 1 ==> Link(mem, rest[k]) == At(rest[k + 1]);
        GatherPrefix(mem, rest);
        var tail := Gather(mem, rest[0], |rest|);
        assert run == [list[0]] + tail;
        assert run == list[..|run|];
      }
    }
  }

  // What a bulk move does to places.
  ghost predicate BulkMove(s: State, s': State, bs: seq<Blk>, p: Place) {
    forall b, q {:trigger In(s', b, q)} :: In(s', b, q) <==> (b !in bs && In(s, b, q)) || (b in bs && q == p)
  }

  lemma Bulk(s: State, s': State, bs: seq<Blk>, p: Place)
    requires s'.place == Moved(s.place, Elems(bs), p) && forall b :: b in bs ==> b in s.place
    ensures BulkMove(s, s', bs, p) && s'.place.Keys == s.place.Keys
  {
  }

  function Detached(s: State, t: nat, c: nat, pend: Option<Blk>, run: seq<Blk>): State
    requires t < |s.th| && Key(t, c) in s.caches
    requires 0 < |run| <= s.caches[Key(t, c)].size == |s.caches[Key(t, c)].list|
  {
    var k := s.caches[Key(t, c)];
    Goto(s, t, FlushLoad(c, pend, run)).(
      caches := s.caches[Key(t, c) := Cache(Link(s.mem, run[|run| - 1]), k.size - |run|, k.max, k.list[|run|..])],
      place := Moved(s.place, Elems(run), Moving(t)))
  }

  lemma DetachEvolves(s: State, t: nat, c: nat, pend: Option<Blk>, run: seq<Blk>)
    requires t < |s.th| && PlaceInv(s) && Key(t, c) in s.caches && s.th[t].Flush?
    requires 0 < |run| <= s.caches[Key(t, c)].size == |s.caches[Key(t, c)].list|
    requires forall b :: b in run ==> In(s, b, Cached(t, c))
    ensures var s' := Detached(s, t, c, pend, run);
            && Evolves(s, s', t, c, -1) && HoldersKept(s, s', t, -1) && PlaceInv(s')
            && BulkMove(s, s', run, Moving(t))
  {
    hide MaxCount, Evolves, PlaceInv;
    var s' := Detached(s, t, c, pend, run);
    Bulk(s, s', run, Moving(t));
    Transfer(s, s', t, c);
  }

  lemma Suffix<T>(list: seq<T>, m: nat)
    requires NoDup(list) && m <= |list|
    ensures NoDup(list[m..]) && NoDup(list[..m])
    ensures forall x :: x in list <==> x in list[..m] || x in list[m..]
    ensures forall x :: x in list[..m] ==> x !in list[m..]
  {
  }

  lemma LinkedSuffix(mem: map<Blk, Ptr>, head: Ptr, list: seq<Blk>, m: nat)
    requires LinkedList(mem, head, list) && 0 < m <= |list|
    ensures LinkedList(mem, Link(mem, list[m - 1]), list[m..])
  {
  }

  lemma DetachCache(s: State, t: nat, c: nat, pend: Option<Blk>, run: seq<Blk>)
    requires t < |s.th| && CacheInv(s, t, c)
    requires 0 < |run| <= s.caches[Key(t, c)].size && run == s.caches[Key(t, c)].list[..|run|]
    requires BulkMove(s, Detached(s, t, c, pend, run), run, Moving(t))
    ensures CacheInv(Detached(s, t, c, pend, run), t, c)
  {
    var s', k := Detached(s, t, c, pend, run), s.caches[Key(t, c)];
    Suffix(k.list, |run|);
    LinkedSuffix(s.mem, k.head, k.list, |run|);
    hide MaxCount, NoDup, LinkedList;
    var rest := k.list[|run|..];
    forall j | 0 <= j < |rest| ensures In(s', rest[j], Cached(t, c)) && ClassIs(s', rest[j].sb, c) {
      assert rest[j] in rest && rest[j] == k.list[|run| + j];
    }
    forall b | In(s', b, Cached(t, c)) ensures b in rest {
      assert In(s, b, Cached(t, c));
    }
  }

  lemma DetachRun(s: State, t: nat, c: nat, pend: Option<Blk>, run: seq<Blk>)
    requires t < |s.th| && CacheInv(s, t, c)
    requires 0 < |run| <= s.caches[Key(t, c)].size && run == s.caches[Key(t, c)].list[..|run|]
    requires forall j :: 0 <= j < |run| ==> run[j].sb == run[0].sb
    requires BulkMove(s, Detached(s, t, c, pend, run), run, Moving(t))
    ensures RunOk(Detached(s, t, c, pend, run), t, c, run)
  {
  }

  lemma DetachPc(s: State, t: nat, c: nat, pend: Option<Blk>, run: seq<Blk>)
    requires t < |s.th| && c < NLIST && Key(t, c) in s.caches && s.th[t] == Flush(c, pend) && PcInv(s, t, s.th[t])
    requires 0 < |run| <= s.caches[Key(t, c)].size == |s.caches[Key(t, c)].list|
    requires RunOk(Detached(s, t, c, pend, run), t, c, run)
    requires BulkMove(s, Detached(s, t, c, pend, run), run, Moving(t))
    requires forall b :: b in run ==> In(s, b, Cached(t, c))
    ensures PcInv(Detached(s, t, c, pend, run), t, FlushLoad(c, pend, run))
  {
  }

  lemma Detaches(s: State, t: nat)
    requires Inv(s) && t < |s.th| && s.th[t].Flush? && s.caches[Key(t, s.th[t].c)].size > 0
    ensures Inv(DoDetach(s, t, s.th[t].c, s.th[t].pend))
  {
    var c, pend := s.th[t].c, s.th[t].pend;
    Have(s, t, c);
    var k := s.caches[Key(t, c)];
    GatherPrefix(s.mem, k.list);
    var run := Gather(s.mem, k.head.b, k.size);
    var s' := Detached(s, t, c, pend, run);
    assert forall b :: b in run ==> In(s, b, Cached(t, c));
    assert s' == DoDetach(s, t, c, pend);
    hide Evolves, PlaceInv, PcInv, PartInv, SbInv, HolderInv, HoldersKept, LinkedList, NoDup, DoDetach;
    DetachEvolves(s, t, c, pend, run);
    hide Detached;
    DetachCache(s, t, c, pend, run);
    DetachRun(s, t, c, pend, run);
    DetachPc(s, t, c, pend, run);
    hide CacheInv;
    KeptParts(s, s', t, c, -1);
    Conclude(s, s', t, c, -1);
  }

  // --- flush: store the link, swap the anchor --------------------------------------------------

  // The thread's write of the last link of its run.
  ghost predicate LinkWrite(s: State, t: nat, pc: Pc, s': State) {
    && t < |s.th| && s.th[t] == pc && pc.FlushWrite? && pc.c < NLIST && PcInv(s, t, pc)
    && s' == Goto(s, t, FlushCas(pc.c, pc.pend, pc.run, pc.was))
             .(mem := s.mem[pc.run[|pc.run| - 1] := At(Blk(pc.run[0].sb, pc.was.avail))])
  }

  lemma LinkWriteIsLocal(s: State, t: nat, pc: Pc, s': State)
    requires LinkWrite(s, t, pc, s')
    ensures In(s, pc.run[|pc.run| - 1], Moving(t))
    ensures forall b, p {:trigger In(s', b, p)} :: In(s', b, p) <==> In(s, b, p)
    ensures forall b {:trigger Link(s'.mem, b)} :: b != pc.run[|pc.run| - 1] ==> Link(s'.mem, b) == Link(s.mem, b)
  {
    hide MaxCount;
  }

  lemma LinkWritePc(s: State, t: nat, pc: Pc, s': State)
    requires LinkWrite(s, t, pc, s')
    ensures PcInv(s', t, s'.th[t])
  {
    hide MaxCount;
    LinkWriteIsLocal(s, t, pc, s');
  }

  lemma WriteParts(s: State, t: nat, pc: Pc, s': State)
    requires LinkWrite(s, t, pc, s') && PlaceInv(s) && CacheInv(s, t, pc.c)
    ensures Evolves(s, s', t, pc.c, -1) && HoldersKept(s, s', t, -1) && PlaceInv(s') && CacheInv(s', t, pc.c)
    ensures PcInv(s', t, s'.th[t])
  {
    hide MaxCount, Evolves, PlaceInv, PcInv;
    LinkWriteIsLocal(s, t, pc, s');
    LinkWritePc(s, t, pc, s');
    Transfer(s, s', t, pc.c);
  }

  lemma WritesLink(s: State, t: nat, pc: Pc, s': State)
    requires Inv(s) && t < |s.th| && s.th[t] == pc && pc.FlushWrite? && pc.run != []
    requires s' == Goto(s, t, FlushCas(pc.c, pc.pend, pc.run, pc.was))
                   .(mem := s.mem[pc.run[|pc.run| - 1] := At(Blk(pc.run[0].sb, pc.was.avail))])
    ensures Inv(s')
  {
    Have(s, t, pc.c);
    WriteParts(s, t, pc, s');
    hide Evolves, PlaceInv, CacheInv, PcInv, PartInv, SbInv, HolderInv, HoldersKept;
    KeptParts(s, s', t, pc.c, -1);
    Conclude(s, s', t, pc.c, -1);
  }

  // Counting: a duplicate-free list of indices below n has at most n members, all of them if n.
  lemma {:induction false} Pigeon(q: seq<nat>, n: nat)
    requires NoDup(q) && forall k :: 0 <= k < |q| ==> q[k] < n
    ensures |q| <= n
    ensures |q| == n ==> forall i: nat :: i < n ==> i in q
  {
    if q != [] {
      assert q[0] < n;
      if n - 1 in q {
        var k :| 0 <= k < |q| && q[k] == n - 1;
        DropMax(q, n, k);
        hide NoDup;
        Pigeon(q[..k] + q[k + 1..], n - 1);
      } else {
        Pigeon(q, n - 1);
      }
    }
  }

  lemma DropMax(q: seq<nat>, n: nat, k: nat)
    requires NoDup(q) && (forall j :: 0 <= j < |q| ==> q[j] < n) && k < |q| && q[k] == n - 1
    ensures var r := q[..k] + q[k + 1..];
            && NoDup(r) && (forall j :: 0 <= j < |r| ==> r[j] < n - 1) && |r| == |q| - 1 && (forall i :: i in r ==> i in q)
  {
    var r := q[..k] + q[k + 1..];
    assert forall j :: 0 <= j < |r| ==> r[j] == if j < k then q[j] else q[j + 1];
  }

  // The run and the chain of its superblock are disjoint, so together they fit.
  lemma RunAndChain(s: State, t: nat, c: nat, run: seq<Blk>)
    requires PlaceInv(s) && RunOk(s, t, c, run) && run[0].sb in s.sbs && SbInv(s, run[0].sb) && c < NLIST
    ensures var d := s.sbs[run[0].sb];
            var q := Idxs(run) + d.chain;
            && NoDup(q) && |q| <= MaxCount(c) && !d.anchor.state.Empty?
            && (|q| == MaxCount(c) ==> forall i: nat :: i < MaxCount(c) ==> i in q)
  {
    hide MaxCount;
    var sb := run[0].sb;
    var d := s.sbs[sb];
    var q := Idxs(run) + d.chain;
    forall j | 0 <= j < |q| ensures q[j] < MaxCount(c) && In(s, Blk(sb, q[j]), if j < |run| then Moving(t) else Free) {
      if j < |run| { assert q[j] == run[j].i && run[j] == Blk(sb, q[j]) && In(s, run[j], Moving(t)); }
      else { assert q[j] == d.chain[j - |run|]; }
    }
    forall i, j | 0 <= i < j < |q| ensures q[i] != q[j] {
      if j < |run| { assert run[i] == Blk(sb, q[i]) && run[j] == Blk(sb, q[j]); }
      else if i >= |run| { assert q[i] == d.chain[i - |run|] && q[j] == d.chain[j - |run|]; }
    }
    Pigeon(q, MaxCount(c));
  }

  function Swapped(s: State, t: nat, pc: Pc): State
    requires t < |s.th| && pc.FlushCas? && pc.run != [] && pc.run[0].sb in s.sbs && MaxCount(pc.c) > 0
  {
    var sb := pc.run[0].sb;
    var d := s.sbs[sb];
    var now := FlushAnchor(pc.was, pc.run[0].i, |pc.run|, pc.c);
    Goto(s, t, AfterFlush(pc.c, pc.pend, sb, pc.was, now)).(
      sbs := s.sbs[sb := Sb(d.cls, now, Idxs(pc.run) + d.chain, if pc.was.state.Full? then Held(t) else d.holder, d.cut)],
      place := Moved(s.place, Elems(pc.run), Free))
  }

  lemma SwapEvolves(s: State, t: nat, pc: Pc)
    requires t < |s.th| && s.th[t] == pc && pc.FlushCas? && pc.c < NLIST && PcInv(s, t, pc) && PlaceInv(s)
    requires var d := s.sbs[pc.run[0].sb];
             d.anchor == pc.was && !pc.was.state.Empty? && (pc.was.state.Full? <==> d.holder.Nobody?)
    ensures var s', sb := Swapped(s, t, pc), pc.run[0].sb;
            && Evolves(s, s', t, pc.c, sb) && HoldersKept(s, s', t, sb) && PartKept(s, s', sb)
            && PlaceInv(s') && BulkMove(s, s', pc.run, Free)
  {
    hide MaxCount;
    var s' := Swapped(s, t, pc);
    assert forall b :: b in pc.run ==> In(s, b, Moving(t));
    Bulk(s, s', pc.run, Free);
    forall b ensures SameBlock(s, s', b) || OwnBlock(s, s', b, t, pc.c, pc.run[0].sb) {}
  }

  lemma SwapChain(s: State, t: nat, pc: Pc, s': State)
    requires t < |s.th| && pc.FlushCas? && pc.c < NLIST && PcInv(s, t, pc) && PlaceInv(s)
    requires SbInv(s, pc.run[0].sb) && s.sbs[pc.run[0].sb].anchor == pc.was
    requires s'.mem == s.mem && BulkMove(s, s', pc.run, Free)
    ensures ChainOk(s', pc.run[0].sb, Idxs(pc.run) + s.sbs[pc.run[0].sb].chain, s.sbs[pc.run[0].sb].cut)
  {
    RunAndChain(s, t, pc.c, pc.run);
    hide MaxCount;
    var sb := pc.run[0].sb;
    var chain, m := s.sbs[sb].chain, |pc.run|;
    var q := Idxs(pc.run) + chain;
    assert forall j :: 0 <= j < m ==> Blk(sb, q[j]) == pc.run[j];
    assert forall j :: m <= j < |q| ==> q[j] == chain[j - m];
    forall k | 0 <= k < |q| ensures In(s', Blk(sb, q[k]), Free) {
      if k < m { assert pc.run[k] in pc.run; } else { assert In(s, Blk(sb, q[k]), Free); }
    }
    forall k | 0 <= k < |q| - 1 && |q| - 1 - k != s.sbs[sb].cut ensures Link(s'.mem, Blk(sb, q[k])) == At(Blk(sb, q[k + 1])) {
      if k + 1 < m {
        assert Link(s.mem, pc.run[k]) == At(pc.run[k + 1]);
      } else if k >= m {
        assert Link(s.mem, Blk(sb, chain[k - m])) == At(Blk(sb, chain[k - m + 1]));
      }
    }
    forall i: nat | In(s', Blk(sb, i), Free) ensures i in q {
      if Blk(sb, i) in pc.run {
        var j :| 0 <= j < m && pc.run[j] == Blk(sb, i);
        assert q[j] == i;
      } else {
        assert In(s, Blk(sb, i), Free) && i in chain;
        var j :| 0 <= j < |chain| && chain[j] == i;
        assert q[m + j] == i;
      }
    }
  }

  lemma SwapSb(s: State, t: nat, pc: Pc)
    requires t < |s.th| && s.th[t] == pc && pc.FlushCas? && pc.c < NLIST && PcInv(s, t, pc) && PlaceInv(s)
    requires SbInv(s, pc.run[0].sb) && HolderInv(s, pc.run[0].sb) && s.sbs[pc.run[0].sb].anchor == pc.was
    requires BulkMove(s, Swapped(s, t, pc), pc.run, Free)
    ensures var s', sb := Swapped(s, t, pc), pc.run[0].sb; SbInv(s', sb) && HolderInv(s', sb)
  {
    var s', sb := Swapped(s, t, pc), pc.run[0].sb;
    RunAndChain(s, t, pc.c, pc.run);
    SwapChain(s, t, pc, s');
    hide MaxCount, ChainOk, BulkMove, RunOk;
    assert |Idxs(pc.run)| == |pc.run|;
  }

  lemma SwapPc(s: State, t: nat, pc: Pc)
    requires t < |s.th| && pc.FlushCas? && pc.c < NLIST && PcInv(s, t, pc) && CacheInv(s, t, pc.c)
    requires s.sbs[pc.run[0].sb].anchor == pc.was && SbInv(s, pc.run[0].sb)
    requires BulkMove(s, Swapped(s, t, pc), pc.run, Free)
    ensures var s' := Swapped(s, t, pc); PcInv(s', t, s'.th[t]) && CacheInv(s', t, pc.c)
  {
    hide MaxCount, ChainOk;
    var s' := Swapped(s, t, pc);
    assert forall b :: b in pc.run ==> In(s, b, Moving(t));
    assert forall b, e :: In(s', b, Cached(t, e)) <==> In(s, b, Cached(t, e));
  }

  lemma SwapsAnchor(s: State, t: nat, pc: Pc, spurious: bool)
    requires Inv(s) && t < |s.th| && s.th[t] == pc && pc.FlushCas?
    ensures Inv(DoFlushCas(s, t, pc, spurious))
  {
    var c := pc.c;
    Have(s, t, c);
    var sb := pc.run[0].sb;
    assert SbInv(s, sb) && HolderInv(s, sb);
    hide MaxCount;
    if s.sbs[sb].anchor != pc.was || spurious {
      JustMoves(s, t, FlushWrite(c, pc.pend, pc.run, s.sbs[sb].anchor));
    } else {
      var s' := Swapped(s, t, pc);
      RunAndChain(s, t, c, pc.run);
      hide Evolves, PlaceInv, CacheInv, PartInv, HolderInv, HoldersKept, RunOk, ChainOk, PartKept;
      SwapEvolves(s, t, pc);
      SwapSb(s, t, pc);
      SwapPc(s, t, pc);
      hide PcInv, SbInv;
      KeptParts(s, s', t, c, sb);
      Conclude(s, s', t, c, sb);
    }
  }

  // --- retiring, listing and unlisting a superblock --------------------------------------------

  lemma EmptyMeansAllFree(s: State, sb: nat)
    requires PlaceInv(s) && sb in s.sbs && SbInv(s, sb) && s.sbs[sb].anchor.state.Empty?
    ensures forall b :: b in s.place && b.sb == sb ==> s.place[b].Free?
  {
    hide MaxCount;
    var d := s.sbs[sb];
    assert forall k :: 0 <= k < |d.chain| ==> Blk(sb, d.chain[k]) in s.place;
    Pigeon(d.chain, MaxCount(d.cls));
    forall b | b in s.place && b.sb == sb ensures s.place[b].Free? {
      assert b.i in d.chain;
      var k :| 0 <= k < |d.chain| && d.chain[k] == b.i;
      assert b == Blk(sb, d.chain[k]) && In(s, Blk(sb, d.chain[k]), Free);
    }
  }

  lemma RetireParts(s: State, t: nat, sb: nat, pc: Pc)
    requires t < |s.th| && Holds(s.th[t]) && s.th[t].sb == sb && PcInv(s, t, s.th[t]) && PlaceInv(s)
    requires !Holds(pc) && !pc.Idle? && pc.c == s.th[t].c
    requires forall b :: b in s.place && b.sb == sb ==> s.place[b].Free?
    ensures var s' := DoRetire(s, t, sb, pc);
            && Evolves(s, s', t, pc.c, sb) && HoldersKept(s, s', t, sb) && PartKept(s, s', sb) && PlaceInv(s')
            && (forall b, p {:trigger In(s', b, p)} :: In(s', b, p) <==> In(s, b, p) && b.sb != sb)
  {
    hide MaxCount, MovingOk, CacheUse;
    var s' := DoRetire(s, t, sb, pc);
    assert forall b, p {:trigger In(s', b, p)} :: In(s', b, p) <==> In(s, b, p) && b.sb != sb;
    forall b ensures SameBlock(s, s', b) || OwnBlock(s, s', b, t, pc.c, sb) {}
  }

  lemma RetirePc(s: State, t: nat, sb: nat, pc: Pc, s': State)
    requires t < |s.th| && Holds(s.th[t]) && PcInv(s, t, s.th[t]) && CacheInv(s, t, s.th[t].c)
    requires !Holds(pc) && !pc.Idle? && pc.c == s.th[t].c
    requires pc.FillPop? ==> Filling(s.th[t])
    requires pc.FillPop? || (pc.Flush? && HasPend(s.th[t]) && pc.pend == s.th[t].pend)
    requires s' == DoRetire(s, t, sb, pc) && forall b :: b in s.place && b.sb == sb ==> s.place[b].Free?
    requires forall b, p {:trigger In(s', b, p)} :: In(s', b, p) <==> In(s, b, p) && b.sb != sb
    ensures CacheInv(s', t, pc.c) && PcInv(s', t, pc)
  {
    hide MaxCount;
    assert forall b, e {:trigger In(s, b, Cached(t, e))} :: In(s, b, Cached(t, e)) ==> b.sb != sb;
  }

  lemma Retires(s: State, t: nat, sb: nat, pc: Pc)
    requires Inv(s) && t < |s.th| && Holds(s.th[t]) && s.th[t].sb == sb && s.sbs[sb].anchor.state.Empty?
    requires !Holds(pc) && !pc.Idle? && pc.c == s.th[t].c
    requires pc.FillPop? ==> Filling(s.th[t])
    requires pc.FillPop? || (pc.Flush? && HasPend(s.th[t]) && pc.pend == s.th[t].pend)
    ensures Inv(DoRetire(s, t, sb, pc))
  {
    var s' := DoRetire(s, t, sb, pc);
    Have(s, t, pc.c);
    assert SbInv(s, sb);
    EmptyMeansAllFree(s, sb);
    RetireParts(s, t, sb, pc);
    RetirePc(s, t, sb, pc, s');
    hide Evolves, PlaceInv, CacheInv, PcInv, PartInv, SbInv, HolderInv, HoldersKept;
    KeptParts(s, s', t, pc.c, sb);
    Conclude(s, s', t, pc.c, sb);
  }

  // Changing only who holds sb.
  lemma HolderParts(s: State, t: nat, sb: nat, h: Holder, c: nat, pc: Pc, s': State)
    requires t < |s.th| && sb in s.sbs && !s.sbs[sb].holder.Nobody? && !h.Nobody?
    requires SbInv(s, sb) && PlaceInv(s) && CacheInv(s, t, c)
    requires (s.sbs[sb].holder == Listed || s.sbs[sb].holder == Held(t)) && s.sbs[sb].cut == 0
    requires s' == s.(th := s.th[t := pc], part := s'.part, sbs := s.sbs[sb := s.sbs[sb].(holder := h)])
    ensures Evolves(s, s', t, c, sb) && PlaceInv(s') && SbInv(s', sb) && CacheInv(s', t, c)
    ensures forall b, p {:trigger In(s', b, p)} :: In(s', b, p) <==> In(s, b, p)
  {
    hide MaxCount;
    assert forall b, p {:trigger In(s', b, p)} :: In(s', b, p) <==> In(s, b, p);
    forall b ensures SameBlock(s, s', b) {}
  }

  lemma ListPart(s: State, sb: nat, c: nat, s': State, e: nat)
    requires e < NLIST == |s.part| && c < NLIST && PartInv(s, e) && ClassIs(s, sb, c) && !s.sbs[sb].holder.Listed?
    requires s'.part == s.part[c := [sb] + s.part[c]] && s'.sbs == s.sbs[sb := s.sbs[sb].(holder := Listed)]
    ensures PartInv(s', e)
  {
  }

  lemma ListPc(s: State, t: nat, sb: nat, pc: Pc, s': State)
    requires t < |s.th| && PcInv(s, t, s.th[t]) && Holds(s.th[t]) && s.th[t].sb == sb && sb in s.sbs && HolderInv(s, sb)
    requires (s.th[t].FlushList? && pc == Flush(s.th[t].c, s.th[t].pend)) || (s.th[t].Relist? && pc == Pop(s.th[t].c))
    requires pc.c < |s.part| && s' == DoList(s, t, pc.c, sb, pc)
    requires forall b, p {:trigger In(s', b, p)} :: In(s', b, p) <==> In(s, b, p)
    ensures HoldersKept(s, s', t, sb) && HolderInv(s', sb) && PcInv(s', t, pc)
  {
  }

  lemma HoldsUncut(s: State, t: nat, sb: nat)
    requires Inv(s) && t < |s.th| && (s.th[t].FlushList? || s.th[t].Relist?) && s.th[t].sb == sb
    ensures ClassIs(s, sb, s.th[t].c) && s.sbs[sb].holder == Held(t) && s.sbs[sb].cut == 0 && SbInv(s, sb) && HolderInv(s, sb)
    ensures s.th[t].c < NLIST == |s.part| && CacheInv(s, t, s.th[t].c) && PcInv(s, t, s.th[t]) && PlaceInv(s) && !s.fault
    ensures forall e :: 0 <= e < NLIST ==> PartInv(s, e)
  {
    Have(s, t, s.th[t].c);
    assert SbInv(s, sb);
    hide SbInv, HolderInv, CacheInv, PartInv, PlaceInv, MovingOk, MaxCount;
  }

  lemma Lists(s: State, t: nat, sb: nat, pc: Pc)
    requires Inv(s) && t < |s.th| && Holds(s.th[t]) && s.th[t].sb == sb
    requires (s.th[t].FlushList? && pc == Flush(s.th[t].c, s.th[t].pend)) || (s.th[t].Relist? && pc == Pop(s.th[t].c))
    ensures Inv(DoList(s, t, pc.c, sb, pc))
  {
    hide Inv, Evolves, PlaceInv, CacheInv, SbInv, HolderInv, HoldersKept, PartInv, PcInv, MaxCount;
    var c := pc.c;
    HoldsUncut(s, t, sb);
    var s' := DoList(s, t, c, sb, pc);
    HolderParts(s, t, sb, Listed, c, pc, s');
    ListPc(s, t, sb, pc, s');
    forall e | 0 <= e < NLIST ensures PartInv(s', e) { ListPart(s, sb, c, s', e); }
    Conclude(s, s', t, c, sb);
  }

  lemma UnlistPart(s: State, t: nat, c: nat, s': State, e: nat)
    requires e < NLIST == |s.part| && c < NLIST && PartInv(s, e) && PartInv(s, c) && s.part[c] != []
    requires s.part[c][0] in s.sbs && s.sbs[s.part[c][0]].cls == c
    requires s'.part == s.part[c := s.part[c][1..]]
    requires s'.sbs == s.sbs[s.part[c][0] := s.sbs[s.part[c][0]].(holder := Held(t))]
    ensures PartInv(s', e)
  {
  }

  lemma UnlistPc(s: State, t: nat, c: nat, sb: nat, s': State)
    requires t < |s.th| && s.th[t] == FillPop(c) && PcInv(s, t, s.th[t]) && c < |s.part| && PartInv(s, c) && s.part[c] != []
    requires sb == s.part[c][0] && s' == DoFillPop(s, t, c) && (sb in s.sbs ==> s.sbs[sb].cut == 0)
    requires forall b, p {:trigger In(s', b, p)} :: In(s', b, p) <==> In(s, b, p)
    ensures HoldersKept(s, s', t, sb) && HolderInv(s', sb) && PcInv(s', t, TakeLoad(c, sb))
  {
    forall e, sb' | 0 <= e < |s.part| && sb' != sb && sb' in s.part[e] ensures sb' in s'.part[e] {
      if e == c { assert s.part[c] == [sb] + s'.part[c]; }
    }
  }

  lemma Unlists(s: State, t: nat)
    requires Inv(s) && t < |s.th| && s.th[t].FillPop?
    ensures Inv(DoFillPop(s, t, s.th[t].c))
  {
    var c := s.th[t].c;
    Have(s, t, c);
    hide PlaceInv, CacheInv, MaxCount, MovingOk;
    if s.part[c] == [] {
      JustMoves(s, t, FillNew(c));
    } else {
      var sb, s' := s.part[c][0], DoFillPop(s, t, c);
      assert SbInv(s, sb) && HolderInv(s, sb);
      hide Evolves, SbInv, HolderInv, HoldersKept;
      HolderParts(s, t, sb, Held(t), c, TakeLoad(c, sb), s');
      UnlistPc(s, t, c, sb, s');
      hide PcInv;
      forall e | 0 <= e < NLIST ensures PartInv(s', e) { UnlistPart(s, t, c, s', e); }
      hide PartInv;
      Conclude(s, s', t, c, sb);
    }
  }

  // --- filling the cache ------------------------------------------------------------------------

  function TookAll(s: State, t: nat, c: nat, sb: nat): State
    requires t < |s.th| && Key(t, c) in s.caches && sb in s.sbs
  {
    var d, k := s.sbs[sb], s.caches[Key(t, c)];
    Goto(s, t, Pop(c)).(
      sbs := s.sbs[sb := Sb(d.cls, Anchor(MaxCount(c), 0, Full), [], Nobody, 0)],
      caches := s.caches[Key(t, c) := Cache(At(Blk(sb, d.anchor.avail)), d.anchor.count, k.max, Blks(sb, d.chain))],
      place := Moved(s.place, Elems(Blks(sb, d.chain)), Cached(t, c)))
  }

  lemma TakeEvolves(s: State, t: nat, c: nat, sb: nat)
    requires t < |s.th| && Key(t, c) in s.caches && sb in s.sbs && PlaceInv(s) && SbInv(s, sb)
    requires Holds(s.th[t]) && s.th[t].sb == sb && s.sbs[sb].holder == Held(t)
    ensures var s' := TookAll(s, t, c, sb);
            && Evolves(s, s', t, c, sb) && HoldersKept(s, s', t, sb) && PartKept(s, s', sb) && PlaceInv(s')
            && BulkMove(s, s', Blks(sb, s.sbs[sb].chain), Cached(t, c))
  {
    hide MaxCount;
    var s', bs := TookAll(s, t, c, sb), Blks(sb, s.sbs[sb].chain);
    assert forall b :: b in bs ==> In(s, b, Free) && b.sb == sb;
    Bulk(s, s', bs, Cached(t, c));
    forall b ensures SameBlock(s, s', b) || OwnBlock(s, s', b, t, c, sb) {}
  }

  lemma TakeFacts(s: State, t: nat, c: nat, sb: nat, s': State)
    requires t < |s.th| && CacheInv(s, t, c) && s.caches[Key(t, c)].size == 0 && c < NLIST && ClassIs(s, sb, c)
    requires SbInv(s, sb) && s.sbs[sb].anchor.state.Partial? && s.sbs[sb].cut == 0 && s' == TookAll(s, t, c, sb)
    requires BulkMove(s, s', Blks(sb, s.sbs[sb].chain), Cached(t, c))
    ensures SbInv(s', sb) && HolderInv(s', sb) && CacheInv(s', t, c) && s'.caches[Key(t, c)].size > 0
  {
    hide MaxCount;
    var d := s.sbs[sb];
    var bs := Blks(sb, d.chain);
    assert forall k :: 0 <= k < |bs| ==> bs[k] == Blk(sb, d.chain[k]);
    forall i: nat | In(s, Blk(sb, i), Free) ensures Blk(sb, i) in bs {
      assert i in d.chain;
      var k :| 0 <= k < |d.chain| && d.chain[k] == i;
      assert bs[k] in bs;
    }
    assert forall b :: In(s', b, Cached(t, c)) <==> b in bs;
    assert NoDup(bs);
  }

  lemma TakePc(s: State, t: nat, c: nat, sb: nat, s': State, bs: seq<Blk>, pc: Pc)
    requires t < |s.th| && PcInv(s, t, s.th[t]) && Filling(s.th[t]) && s'.th == s.th[t := pc] && c < NLIST
    requires BulkMove(s, s', bs, Cached(t, c)) && Key(t, c) in s'.caches && s'.caches[Key(t, c)].size > 0
    requires pc == Pop(c) || (pc == Relist(c, sb) && ClassIs(s', sb, c) && s'.sbs[sb].holder == Held(t) && s'.sbs[sb].cut == 0)
    ensures PcInv(s', t, pc)
  {
    assert forall b :: In(s', b, Moving(t)) ==> In(s, b, Moving(t));
    assert forall b :: In(s', b, Pending(t)) ==> In(s, b, Pending(t));
  }

  lemma TakeSucceeds(s: State, t: nat, c: nat, sb: nat)
    requires Inv(s) && t < |s.th| && s.th[t].TakeCas? && s.th[t].c == c && s.th[t].sb == sb
    requires sb in s.sbs && s.sbs[sb].anchor.state.Partial?
    ensures Inv(TookAll(s, t, c, sb))
  {
    Have(s, t, c);
    assert SbInv(s, sb);
    hide MaxCount, Evolves, PlaceInv, CacheInv, PartInv, HolderInv, HoldersKept, ChainOk, PartKept, BulkMove, MovingOk;
    var s', bs := TookAll(s, t, c, sb), Blks(sb, s.sbs[sb].chain);
    TakeEvolves(s, t, c, sb);
    TakeFacts(s, t, c, sb, s');
    TakePc(s, t, c, sb, s', bs, Pop(c));
    hide PcInv, SbInv;
    KeptParts(s, s', t, c, sb);
    Conclude(s, s', t, c, sb);
  }

  lemma TakesAll(s: State, t: nat, pc: Pc, spurious: bool)
    requires Inv(s) && t < |s.th| && s.th[t] == pc && pc.TakeCas?
    ensures Inv(DoTakeCas(s, t, pc, spurious))
  {
    var c, sb := pc.c, pc.sb;
    Have(s, t, c);
    assert SbInv(s, sb);
    hide Inv, MaxCount, DoRetire, PlaceInv, PartInv, CacheInv, ChainOk;
    if pc.was.state.Empty? {
      Retires(s, t, sb, FillPop(c));
    } else if s.sbs[sb].anchor != pc.was || spurious {
      JustMoves(s, t, TakeCas(c, sb, s.sbs[sb].anchor));
    } else {
      TakeSucceeds(s, t, c, sb);
    }
  }

  // Following links from the head of a linked list yields its prefix.
  lemma {:induction false} WalkPrefix(mem: map<Blk, Ptr>, list: seq<Blk>, n: nat)
    requires n <= |list| && (forall k :: 0 <= k < |list| - 1 ==> Link(mem, list[k]) == At(list[k + 1]))
    ensures n > 0 ==> Walk(mem, At(list[0]), n) == list[..n]
    decreases n
  {
    if n > 1 {
      var rest := list[1..];
      assert rest[0] == list[1];
      assert forall k :: 0 <= k < |rest| - 1 ==> Link(mem, rest[k]) == At(rest[k + 1]);
      WalkPrefix(mem, rest, n - 1);
      assert list[..n] == [list[0]] + rest[..n - 1];
    } else if n == 1 {
      assert Walk(mem, At(list[0]), 1) == [list[0]] + Walk(mem, Link(mem, list[0]), 0);
    }
  }

  // One more link of the walk, at a superblock whose chain is not cut.
  lemma WalksOn(s: State, t: nat)
    requires Inv(s) && t < |s.th| && s.th[t].SplitWalk? && |s.th[t].got| < s.caches[Key(t, s.th[t].c)].max
    ensures Inv(DoSplitWalk(s, t, s.th[t]))
  {
    var pc := s.th[t];
    var c, sb := pc.c, pc.sb;
    Have(s, t, c);
    assert SbInv(s, sb);
    hide Inv, MaxCount, PlaceInv, PartInv, CacheInv, MovingOk;
    var pc' := SplitWalk(c, sb, pc.first, pc.got + [pc.rest.b], Link(s.mem, pc.rest.b));
    WalkOneMore(s, sb, pc);
    assert PcInv(s, t, pc') by { WalkPc(s, t, pc, pc'); }
    JustMoves(s, t, pc');
  }

  lemma WalkOneMore(s: State, sb: nat, pc: Pc)
    requires sb in s.sbs && SbInv(s, sb) && pc.SplitWalk? && pc.sb == sb && SplitOk(s.sbs[sb], pc) && s.sbs[sb].cut == 0
    requires |pc.got| + 1 < pc.first.count
    ensures pc.rest.At? && SplitOk(s.sbs[sb], SplitWalk(pc.c, sb, pc.first, pc.got + [pc.rest.b], Link(s.mem, pc.rest.b)))
  {
    hide MaxCount;
    var d, m := s.sbs[sb], |pc.got|;
    var off := |d.chain| - pc.first.count;
    assert Link(s.mem, Blk(sb, d.chain[off + m])) == At(Blk(sb, d.chain[off + m + 1]));
    assert Blks(sb, d.chain[off..off + m + 1]) == Blks(sb, d.chain[off..off + m]) + [Blk(sb, d.chain[off + m])];
  }

  lemma WalkPc(s: State, t: nat, pc: Pc, pc': Pc)
    requires PcInv(s, t, pc) && pc.SplitWalk? && pc'.SplitWalk? && pc'.c == pc.c && pc'.sb == pc.sb && pc'.first == pc.first
    requires pc.sb in s.sbs && SplitOk(s.sbs[pc.sb], pc') && Key(t, pc.c) in s.caches && |pc'.got| <= s.caches[Key(t, pc.c)].max
    ensures PcInv(s, t, pc')
  {
    hide MaxCount, SplitOk;
  }

  // The null store: the chain is cut behind the blocks walked over.
  function CutOff(s: State, t: nat, pc: Pc): State
    requires t < |s.th| && pc.SplitWalk? && pc.sb in s.sbs && 0 < |pc.got| <= pc.first.count
  {
    Goto(s, t, SplitCas(pc.c, pc.sb, pc.first, pc.got, pc.rest, pc.first)).(
      mem := s.mem[pc.got[|pc.got| - 1] := NIL],
      sbs := s.sbs[pc.sb := s.sbs[pc.sb].(cut := pc.first.count - |pc.got|)])
  }

  lemma CutEvolves(s: State, t: nat, pc: Pc)
    requires t < |s.th| && s.th[t] == pc && pc.SplitWalk? && pc.got != [] && PcInv(s, t, pc) && PlaceInv(s) && SbInv(s, pc.sb)
    ensures var s', sb := CutOff(s, t, pc), pc.sb;
            && Evolves(s, s', t, pc.c, sb) && HoldersKept(s, s', t, sb) && PartKept(s, s', sb) && PlaceInv(s')
            && (forall b, p {:trigger In(s', b, p)} :: In(s', b, p) <==> In(s, b, p))
  {
    hide MaxCount, MovingOk, CacheUse;
    var s', sb := CutOff(s, t, pc), pc.sb;
    LastGot(s, t, pc);
    hide SbInv, SplitOk;
    forall b ensures SameBlock(s, s', b) || OwnBlock(s, s', b, t, pc.c, sb) {}
  }

  lemma LastGot(s: State, t: nat, pc: Pc)
    requires Splits(pc) && pc.sb in s.sbs && SbInv(s, pc.sb) && SplitOk(s.sbs[pc.sb], pc) && pc.got != []
    ensures var d, m := s.sbs[pc.sb], |pc.got|;
            && var k := |d.chain| - pc.first.count + m - 1;
            && 0 <= k < |d.chain| && pc.got[m - 1] == Blk(pc.sb, d.chain[k]) && In(s, pc.got[m - 1], Free) && |d.chain| - 1 - k == pc.first.count - m
  {
    hide MaxCount;
    var d, m := s.sbs[pc.sb], |pc.got|;
    var off := |d.chain| - pc.first.count;
    assert d.chain[off..off + m][m - 1] == d.chain[off + m - 1];
  }

  lemma CutSb(s: State, t: nat, pc: Pc, s': State)
    requires t < |s.th| && s.th[t] == pc && pc.SplitWalk? && pc.got != [] && PcInv(s, t, pc) && SbInv(s, pc.sb)
    requires s' == CutOff(s, t, pc) && forall b, p {:trigger In(s', b, p)} :: In(s', b, p) <==> In(s, b, p)
    ensures SbInv(s', pc.sb) && HolderInv(s', pc.sb)
  {
    hide MaxCount, MovingOk, CacheUse;
    LastGot(s, t, pc);
    var sb, chain, last := pc.sb, s.sbs[pc.sb].chain, pc.got[|pc.got| - 1];
    hide SplitOk;
    forall k | 0 <= k < |chain| - 1 && |chain| - 1 - k != s'.sbs[sb].cut ensures Link(s'.mem, Blk(sb, chain[k])) == At(Blk(sb, chain[k + 1])) {
      assert Link(s.mem, Blk(sb, chain[k])) == At(Blk(sb, chain[k + 1]));
      assert Blk(sb, chain[k]) != last;
    }
  }

  lemma CutPc(s: State, t: nat, pc: Pc, s': State)
    requires t < |s.th| && s.th[t] == pc && pc.SplitWalk? && pc.got != [] && PcInv(s, t, pc) && SbInv(s, pc.sb)
    requires |pc.got| >= s.caches[Key(t, pc.c)].max
    requires s' == CutOff(s, t, pc) && forall b, p {:trigger In(s', b, p)} :: In(s', b, p) <==> In(s, b, p)
    ensures PcInv(s', t, s'.th[t])
  {
    hide MaxCount, AnchorOk, ChainOk;
  }

  lemma CutCache(s: State, t: nat, pc: Pc, s': State)
    requires t < |s.th| && s.th[t] == pc && pc.SplitWalk? && pc.got != [] && PcInv(s, t, pc) && CacheInv(s, t, pc.c) && SbInv(s, pc.sb)
    requires s' == CutOff(s, t, pc) && forall b, p {:trigger In(s', b, p)} :: In(s', b, p) <==> In(s, b, p)
    ensures CacheInv(s', t, pc.c)
  {
    hide MaxCount, MovingOk, CacheUse;
    LastGot(s, t, pc);
    hide SbInv, SplitOk;
    assert forall b {:trigger Link(s'.mem, b)} :: b != pc.got[|pc.got| - 1] ==> Link(s'.mem, b) == Link(s.mem, b);
  }

  lemma Cuts(s: State, t: nat)
    requires Inv(s) && t < |s.th| && s.th[t].SplitWalk? && |s.th[t].got| >= s.caches[Key(t, s.th[t].c)].max
    ensures Inv(DoSplitWalk(s, t, s.th[t]))
  {
    var pc := s.th[t];
    Have(s, t, pc.c);
    assert SbInv(s, pc.sb);
    hide MaxCount;
    var s' := CutOff(s, t, pc);
    assert DoSplitWalk(s, t, pc) == s';
    hide Evolves, PlaceInv, PartInv, HolderInv, HoldersKept, ChainOk, PartKept, MovingOk, SplitOk, LinkedList, DoSplitWalk, CutOff, CacheInv, SbInv;
    CutEvolves(s, t, pc);
    CutSb(s, t, pc, s');
    CutPc(s, t, pc, s');
    CutCache(s, t, pc, s');
    hide PcInv;
    KeptParts(s, s', t, pc.c, pc.sb);
    Conclude(s, s', t, pc.c, pc.sb);
  }

  // A successful CAS of a split that found the chain as it was at line 444.
  function SplitOff(s: State, t: nat, c: nat, sb: nat, n: nat): State
    requires t < |s.th| && Key(t, c) in s.caches && sb in s.sbs
    requires 0 < n < |s.sbs[sb].chain| == s.sbs[sb].anchor.count
  {
    var d, k := s.sbs[sb], s.caches[Key(t, c)];
    var got := Blks(sb, d.chain[..n]);
    Goto(s, t, Relist(c, sb)).(
      sbs := s.sbs[sb := Sb(d.cls, Anchor(d.chain[n], d.anchor.count - n, Partial), d.chain[n..], d.holder, 0)],
      caches := s.caches[Key(t, c) := Cache(At(got[0]), n, Doubled(k.max, c), got)],
      place := Moved(s.place, Elems(got), Cached(t, c)))
  }

  // Then the split branch detaches exactly the first blocks of the chain, and leaves the rest.
  lemma SplitIsPrefix(s: State, t: nat, pc: Pc)
    requires t < |s.th| && s.th[t] == pc && pc.SplitCas? && PcInv(s, t, pc) && SbInv(s, pc.sb)
    requires pc.was == pc.first && s.sbs[pc.sb].anchor == pc.first
    ensures |pc.got| == s.caches[Key(t, pc.c)].max && 0 < |pc.got| < |s.sbs[pc.sb].chain| == s.sbs[pc.sb].anchor.count
    ensures s.sbs[pc.sb].cut == |s.sbs[pc.sb].chain| - |pc.got|
    ensures DoSplitCas(s, t, pc, false) == SplitOff(s, t, pc.c, pc.sb, |pc.got|)
  {
    hide MaxCount, ChainOk;
    var d, m := s.sbs[pc.sb], |pc.got|;
    assert d.chain[0..0 + m] == d.chain[..m];
    assert d.chain[..0] + d.chain[0 + m..] == d.chain[m..];
  }

  lemma SplitEvolves(s: State, t: nat, c: nat, sb: nat, n: nat)
    requires t < |s.th| && Key(t, c) in s.caches && sb in s.sbs && PlaceInv(s) && SbInv(s, sb)
    requires Holds(s.th[t]) && s.th[t].sb == sb && s.sbs[sb].holder == Held(t)
    requires 0 < n < |s.sbs[sb].chain| == s.sbs[sb].anchor.count
    ensures var s' := SplitOff(s, t, c, sb, n);
            && Evolves(s, s', t, c, sb) && HoldersKept(s, s', t, sb) && PartKept(s, s', sb) && PlaceInv(s')
            && BulkMove(s, s', Blks(sb, s.sbs[sb].chain[..n]), Cached(t, c))
  {
    hide MaxCount, SbInv;
    var s', bs := SplitOff(s, t, c, sb, n), Blks(sb, s.sbs[sb].chain[..n]);
    PrefixIsFree(s, sb, n);
    Bulk(s, s', bs, Cached(t, c));
    assert bs[n - 1] in bs;
    forall b ensures SameBlock(s, s', b) || OwnBlock(s, s', b, t, c, sb) {}
  }

  lemma PrefixIsFree(s: State, sb: nat, n: nat)
    requires sb in s.sbs && SbInv(s, sb) && n <= |s.sbs[sb].chain|
    ensures forall b :: b in Blks(sb, s.sbs[sb].chain[..n]) ==> In(s, b, Free) && b.sb == sb
  {
    hide MaxCount;
  }

  lemma PrefixBlks(sb: nat, chain: seq<nat>, n: nat, k: nat)
    requires n <= |chain| && k < |chain|
    ensures k < n ==> Blk(sb, chain[k]) in Blks(sb, chain[..n])
  {
    if k < n { assert Blks(sb, chain[..n])[k] == Blk(sb, chain[k]); }
  }

  lemma SplitSb(s: State, t: nat, c: nat, sb: nat, n: nat, s': State)
    requires t < |s.th| && Key(t, c) in s.caches && c < NLIST && ClassIs(s, sb, c) && SbInv(s, sb)
    requires s.sbs[sb].anchor.state.Partial? && 0 < n < |s.sbs[sb].chain| && s.sbs[sb].holder == Held(t)
    requires s.sbs[sb].cut == |s.sbs[sb].chain| - n
    requires s' == SplitOff(s, t, c, sb, n) && BulkMove(s, s', Blks(sb, s.sbs[sb].chain[..n]), Cached(t, c))
    ensures SbInv(s', sb) && HolderInv(s', sb)
  {
    hide MaxCount;
    var chain := s.sbs[sb].chain;
    var got, rest := Blks(sb, chain[..n]), chain[n..];
    assert forall k :: 0 <= k < n ==> got[k] == Blk(sb, chain[k]);
    assert forall k :: 0 <= k < |rest| ==> rest[k] == chain[n + k];
    forall k | 0 <= k < |rest| ensures In(s', Blk(sb, rest[k]), Free) {
      assert Blk(sb, rest[k]) !in got;
    }
    forall k | 0 <= k < |rest| - 1 ensures Link(s'.mem, Blk(sb, rest[k])) == At(Blk(sb, rest[k + 1])) {
      assert Link(s.mem, Blk(sb, chain[n + k])) == At(Blk(sb, chain[n + k + 1]));
    }
    forall i: nat | In(s', Blk(sb, i), Free) ensures i in rest {
      assert i in chain;
      var k :| 0 <= k < |chain| && chain[k] == i;
      assert Blk(sb, i) !in got;
      assert k >= n by { PrefixBlks(sb, chain, n, k); }
      assert rest[k - n] == i;
    }
  }

  lemma SplitCache(s: State, t: nat, c: nat, sb: nat, n: nat, s': State)
    requires t < |s.th| && CacheInv(s, t, c) && s.caches[Key(t, c)].size == 0 && c < NLIST && ClassIs(s, sb, c)
    requires SbInv(s, sb) && s.sbs[sb].anchor.state.Partial? && 0 < n < |s.sbs[sb].chain| && s.sbs[sb].cut == |s.sbs[sb].chain| - n
    requires s' == SplitOff(s, t, c, sb, n) && BulkMove(s, s', Blks(sb, s.sbs[sb].chain[..n]), Cached(t, c))
    ensures CacheInv(s', t, c) && s'.caches[Key(t, c)].size > 0
  {
    hide MaxCount;
    var chain := s.sbs[sb].chain;
    var got := Blks(sb, chain[..n]);
    assert forall k :: 0 <= k < n ==> got[k] == Blk(sb, chain[k]);
    forall k | 0 <= k < n - 1 ensures Link(s'.mem, got[k]) == At(got[k + 1]) {
      assert Link(s.mem, Blk(sb, chain[k])) == At(Blk(sb, chain[k + 1]));
    }
    assert forall b :: In(s', b, Cached(t, c)) <==> b in got;
    assert NoDup(got);
  }

  lemma TakesPart(s: State, t: nat)
    requires Inv(s) && t < |s.th| && s.th[t].TakeLoad?
    ensures Inv(DoTakeLoad(s, t, s.th[t].c, s.th[t].sb))
  {
    var c, sb := s.th[t].c, s.th[t].sb;
    Have(s, t, c);
    assert SbInv(s, sb);
    hide MaxCount;
    var a := s.sbs[sb].anchor;
    if a.count <= s.caches[Key(t, c)].max {
      JustMoves(s, t, TakeCas(c, sb, a));
    } else if a.state.Empty? {
      Retires(s, t, sb, FillPop(c));
    } else {
      assert s.sbs[sb].chain[0..0] == [];
      JustMoves(s, t, SplitWalk(c, sb, a, [], At(Blk(sb, a.avail))));
    }
  }

  // The CAS of a split replaces the anchor that was loaded at line 444.
  predicate SplitIsFresh(s: State, a: Act)
    requires Shape(s) && Allowed(s, a)
  {
    a.Step? && s.th[a.t].SplitCas? && s.th[a.t].sb in s.sbs && s.sbs[s.th[a.t].sb].anchor == s.th[a.t].was && !a.spurious ==>
      s.th[a.t].was == s.th[a.t].first
  }

  lemma SplitSucceeds(s: State, t: nat)
    requires Inv(s) && t < |s.th| && s.th[t].SplitCas? && s.th[t].was == s.th[t].first && s.sbs[s.th[t].sb].anchor == s.th[t].first
    ensures Inv(DoSplitCas(s, t, s.th[t], false))
  {
    var pc := s.th[t];
    var c, sb, n := pc.c, pc.sb, |pc.got|;
    Have(s, t, c);
    assert SbInv(s, sb);
    SplitIsPrefix(s, t, pc);
    var s', got := SplitOff(s, t, c, sb, n), Blks(sb, s.sbs[sb].chain[..n]);
    hide MaxCount, Evolves, PlaceInv, PartInv, HolderInv, HoldersKept, ChainOk, PartKept, BulkMove, MovingOk, LinkedList, DoSplitCas, SplitOk;
    SplitEvolves(s, t, c, sb, n);
    SplitSb(s, t, c, sb, n, s');
    SplitCache(s, t, c, sb, n, s');
    TakePc(s, t, c, sb, s', got, Relist(c, sb));
    hide PcInv, SbInv, CacheInv;
    KeptParts(s, s', t, c, sb);
    Conclude(s, s', t, c, sb);
  }

  // A failed CAS reloads the anchor.
  lemma SplitRetries(s: State, t: nat, spurious: bool)
    requires Inv(s) && t < |s.th| && s.th[t].SplitCas? && (s.sbs[s.th[t].sb].anchor != s.th[t].was || spurious)
    ensures Inv(DoSplitCas(s, t, s.th[t], spurious))
  {
    var pc := s.th[t];
    Have(s, t, pc.c);
    assert SbInv(s, pc.sb);
    hide MaxCount, ChainOk;
    JustMoves(s, t, SplitCas(pc.c, pc.sb, pc.first, pc.got, pc.rest, s.sbs[pc.sb].anchor));
  }

  // While no one has put blocks in front of the chain, the anchor is the one loaded at line 444.
  lemma SameChainSameAnchor(s: State, t: nat, pc: Pc)
    requires Splits(pc) && PcInv(s, t, pc) && SbInv(s, pc.sb)
    ensures |s.sbs[pc.sb].chain| == pc.first.count <==> s.sbs[pc.sb].anchor == pc.first
  {
    hide MaxCount, ChainOk, MovingOk, CacheUse;
  }

  // A CAS that replaces any other anchor leaves one that does not describe the chain.
  lemma SplitBreaks(s: State, t: nat)
    requires Inv(s) && t < |s.th| && s.th[t].SplitCas? && s.th[t].was != s.th[t].first && s.sbs[s.th[t].sb].anchor == s.th[t].was
    ensures !Inv(DoSplitCas(s, t, s.th[t], false))
  {
    var pc, s' := s.th[t], DoSplitCas(s, t, s.th[t], false);
    var sb := pc.sb;
    Have(s, t, pc.c);
    assert SbInv(s, sb);
    SameChainSameAnchor(s, t, pc);
    hide MaxCount;
    var chain, n, m := s.sbs[sb].chain, pc.first.count, |pc.got|;
    var off := |chain| - n;
    assert off > 0 && s'.sbs[sb].chain[0] == chain[0] != chain[off + m] == s'.sbs[sb].anchor.avail;
    assert !SbInv(s', sb);
  }

  // What malloc_from_newsb sets up: the first m blocks cached, the others free and chained in order.
  ghost predicate NewBlocks(s: State, s': State, p: Place, sb: nat, n: nat, m: nat) {
    && (forall b: Blk {:trigger SameBlock(s, s', b)} :: b.sb != sb ==> SameBlock(s, s', b))
    && (forall i: nat {:trigger Blk(sb, i)} :: Blk(sb, i) in s'.place <==> i < n)
    && (forall i: nat {:trigger Blk(sb, i)} :: i < n ==> s'.place[Blk(sb, i)] == if i < m then p else Free)
    && (forall i: nat {:trigger Blk(sb, i)} :: i + 1 < n && i + 1 != m ==> Link(s'.mem, Blk(sb, i)) == At(Blk(sb, i + 1)))
  }

  ghost predicate NewMeta(s: State, s': State, t: nat, c: nat, sb: nat, n: nat, m: nat) {
    && 0 < m <= n && Threads(s, s', t, c) && s'.gone == s.gone && s'.part == s.part && !s'.fault
    && Key(t, c) in s.caches && Key(t, c) in s'.caches && sb in s'.sbs && s'.sbs == s.sbs[sb := s'.sbs[sb]]
    && s'.sbs[sb].cls == c
    && (m == n ==> s'.sbs[sb] == Sb(c, Anchor(n, 0, Full), [], Nobody, 0))
    && (m < n ==> s'.sbs[sb].(chain := []) == Sb(c, Anchor(m, n - m, Partial), [], Held(t), 0))
    && |s'.sbs[sb].chain| == n - m && (forall j :: 0 <= j < n - m ==> s'.sbs[sb].chain[j] == m + j)
    && var k := s'.caches[Key(t, c)];
    && k.head == At(Blk(sb, 0)) && k.size == m == |k.list| && k.max == Doubled(s.caches[Key(t, c)].max, c)
    && (forall j :: 0 <= j < m ==> k.list[j] == Blk(sb, j))
  }

  ghost predicate NewLayout(s: State, s': State, t: nat, c: nat, sb: nat, m: nat) {
    NewBlocks(s, s', Cached(t, c), sb, MaxCount(c), m) && NewMeta(s, s', t, c, sb, MaxCount(c), m)
  }

  lemma NewMemLinks(mem: map<Blk, Ptr>, sb: nat, n: nat, m: nat, junk: Ptr)
    requires 0 < m <= n
    ensures var mem' := NewMem(mem, sb, n, m, junk);
            && (forall b: Blk :: b.sb != sb ==> Link(mem', b) == Link(mem, b))
            && (forall i: nat {:trigger Blk(sb, i)} :: i + 1 < n && i + 1 != m ==> Link(mem', Blk(sb, i)) == At(Blk(sb, i + 1)))
  {
  }

  lemma NewPlaces(place: map<Blk, Place>, sb: nat, n: nat, m: nat, p: Place)
    requires forall b: Blk :: b.sb == sb ==> b !in place
    ensures var place' := NewPlace(place, sb, n, m, p);
            && (forall b: Blk :: b.sb != sb ==> (b in place' <==> b in place) && (b in place ==> place'[b] == place[b]))
            && (forall i: nat {:trigger Blk(sb, i)} :: Blk(sb, i) in place' <==> i < n)
            && (forall i: nat {:trigger Blk(sb, i)} :: i < n ==> place'[Blk(sb, i)] == if i < m then p else Free)
  {
  }

  lemma NewIsLayout(s: State, t: nat, c: nat, sb: nat, junk: Ptr)
    requires t < |s.th| && c < NLIST && Key(t, c) in s.caches && s.caches[Key(t, c)].max > 0 && !s.fault
    requires forall b: Blk :: b.sb == sb ==> b !in s.place
    ensures var s', n, max := DoFillNew(s, t, c, sb, junk), MaxCount(c), s.caches[Key(t, c)].max;
            && NewLayout(s, s', t, c, sb, if max >= n then n else max)
            && s'.th == s.th[t := if max >= n then Pop(c) else Relist(c, sb)]
  {
    hide MaxCount, NewMem, NewPlace;
    var s', n, max := DoFillNew(s, t, c, sb, junk), MaxCount(c), s.caches[Key(t, c)].max;
    var m := if max >= n then n else max;
    assert NewBlocks(s, s', Cached(t, c), sb, n, m) by {
      NewMemLinks(s.mem, sb, n, m, junk);
      NewPlaces(s.place, sb, n, m, Cached(t, c));
    }
    hide NewBlocks;
  }

  lemma NewEvolves(s: State, t: nat, c: nat, sb: nat, m: nat, s': State)
    requires t < |s.th| && c < NLIST && PlaceInv(s) && sb !in s.sbs && sb !in s.gone && !Holds(s.th[t])
    requires NewLayout(s, s', t, c, sb, m)
    ensures Evolves(s, s', t, c, sb) && HoldersKept(s, s', t, sb) && PartKept(s, s', sb) && PlaceInv(s')
  {
    hide MaxCount;
    forall b ensures SameBlock(s, s', b) || OwnBlock(s, s', b, t, c, sb) {
      assert b == Blk(b.sb, b.i);
    }
    forall b | b in s'.place ensures b.sb in s'.sbs && b.i < MaxCount(s'.sbs[b.sb].cls) {
      assert b == Blk(b.sb, b.i) && (b.sb != sb ==> SameBlock(s, s', b));
    }
  }

  lemma NewSb(s: State, t: nat, c: nat, sb: nat, m: nat, s': State)
    requires c < NLIST && NewLayout(s, s', t, c, sb, m) && t < |s'.th|
    requires m < MaxCount(c) ==> s'.th[t] == Relist(c, sb)
    ensures SbInv(s', sb) && HolderInv(s', sb)
  {
    hide MaxCount;
    var chain := s'.sbs[sb].chain;
    forall i: nat | In(s', Blk(sb, i), Free) ensures i in chain {
      assert chain[i - m] == i;
    }
  }

  lemma NewCache(s: State, t: nat, c: nat, sb: nat, m: nat, s': State)
    requires c < NLIST && NewLayout(s, s', t, c, sb, m) && CacheInv(s, t, c) && s.caches[Key(t, c)].size == 0
    ensures CacheInv(s', t, c)
  {
    hide MaxCount;
    var k := s'.caches[Key(t, c)];
    forall b | In(s', b, Cached(t, c)) ensures b in k.list {
      assert b == Blk(b.sb, b.i);
      assert b.sb == sb by { assert b.sb != sb ==> SameBlock(s, s', b) && In(s, b, Cached(t, c)); }
      assert k.list[b.i] == b;
    }
  }

  lemma NewPc(s: State, t: nat, c: nat, sb: nat, m: nat, s': State, pc: Pc)
    requires c < NLIST && NewLayout(s, s', t, c, sb, m) && t < |s.th| && s.th[t] == FillNew(c) && PcInv(s, t, s.th[t])
    requires pc == Pop(c) || (pc == Relist(c, sb) && m < MaxCount(c))
    ensures PcInv(s', t, pc)
  {
    hide MaxCount;
    forall b, p | (p == Moving(t) || p == Pending(t)) && In(s', b, p) ensures In(s, b, p) {
      assert b == Blk(b.sb, b.i) && (b.sb != sb ==> SameBlock(s, s', b));
    }
  }

  lemma NewIsUnplaced(s: State, sb: nat)
    requires PlaceInv(s) && sb !in s.sbs
    ensures forall b: Blk :: b.sb == sb ==> b !in s.place
  {
  }

  lemma FillsNew(s: State, t: nat, sb: nat, junk: Ptr)
    requires Inv(s) && t < |s.th| && s.th[t].FillNew? && sb !in s.sbs && sb !in s.gone
    ensures Inv(DoFillNew(s, t, s.th[t].c, sb, junk))
  {
    hide Evolves, PlaceInv, PartInv, SbInv, HolderInv, HoldersKept, MaxCount, PartKept, MovingOk, LinkedList, NoDup, DoFillNew, NewLayout;
    var c := s.th[t].c;
    var s' := DoFillNew(s, t, c, sb, junk);
    Have(s, t, c);
    NewIsUnplaced(s, sb);
    var max, n := s.caches[Key(t, c)].max, MaxCount(c);
    var m := if max >= n then n else max;
    NewIsLayout(s, t, c, sb, junk);
    NewEvolves(s, t, c, sb, m, s');
    NewSb(s, t, c, sb, m, s');
    NewCache(s, t, c, sb, m, s');
    NewPc(s, t, c, sb, m, s', s'.th[t]);
    assert !s'.fault by { NewNoFault(s, t, c, sb, m, s'); }
    hide CacheInv, PcInv;
    KeptParts(s, s', t, c, sb);
    Conclude(s, s', t, c, sb);
  }

  lemma NewNoFault(s: State, t: nat, c: nat, sb: nat, m: nat, s': State)
    requires NewLayout(s, s', t, c, sb, m)
    ensures !s'.fault
  {
  }

  // A user writes whatever it likes into a block it holds.
  lemma UserWrites(s: State, b: Blk, w: Ptr)
    requires Inv(s) && In(s, b, Live)
    ensures Inv(s.(mem := s.mem[b := w]))
  {
    hide Evolves, PlaceInv, CacheInv, PcInv, PartInv, SbInv, HolderInv, PartKept, MaxCount;
    var s', n := s.(mem := s.mem[b := w]), |s.th|;
    WriteEvolves(s, b, w, s');
    forall sb | sb in s'.sbs ensures SbInv(s', sb) && HolderInv(s', sb) {
      assert SbInv(s, sb) && HolderInv(s, sb);
      OtherSb(s, s', n, 0, -1, sb);
      HolderIgnoresMem(s, s', sb);
    }
    forall u, e | 0 <= u < |s'.th| && 0 <= e < NLIST ensures CacheInv(s', u, e) {
      assert CacheInv(s, u, e);
      OtherCache(s, s', n, 0, -1, u, e);
    }
    forall u | 0 <= u < |s'.th| ensures PcInv(s', u, s'.th[u]) {
      OtherPc(s, s', n, 0, -1, u);
    }
    forall e | 0 <= e < NLIST ensures PartInv(s', e) {
      KeptPart(s, s', n, 0, -1, e);
    }
  }

  lemma WriteEvolves(s: State, b: Blk, w: Ptr, s': State)
    requires PlaceInv(s) && In(s, b, Live) && s' == s.(mem := s.mem[b := w])
    ensures Evolves(s, s', |s.th|, 0, -1) && PlaceInv(s') && PartKept(s, s', -1)
  {
  }

  lemma HolderIgnoresMem(s: State, s': State, sb: nat)
    requires s' == s.(mem := s'.mem) && sb in s.sbs && HolderInv(s, sb)
    ensures HolderInv(s', sb)
  {
  }

  // ---------------------------------------------------------------------------------------
  // Theorems
  // ---------------------------------------------------------------------------------------

  lemma FlushStepKeeps(s: State, t: nat, spurious: bool, sbNew: nat, junk: Ptr)
    requires Inv(s) && t < |s.th| && HasPend(s.th[t])
    ensures Inv(DoStep(s, t, spurious, sbNew, junk))
  {
    hide Inv, PlaceInv, CacheInv, PartInv, MaxCount, DoDetach, DoPush, DoFlushCas, DoRetire, DoList, NoDup, SplitOk;
    var pc := s.th[t];
    assert Shape(s) && PcInv(s, t, pc) by { HavePc(s, t); }
    match pc
    case Flush(c, pend) =>
      if s.caches[Key(t, c)].size > 0 { Detaches(s, t); }
      else if pend.Some? { Pushes(s, t, c, pend.value); }
      else { JustMoves(s, t, Idle); }
    case FlushLoad(c, pend, run) => JustMoves(s, t, FlushWrite(c, pend, run, s.sbs[run[0].sb].anchor));
    case FlushWrite(c, pend, run, was) => WritesLink(s, t, pc, DoStep(s, t, spurious, sbNew, junk));
    case FlushCas(_, _, _, _) => SwapsAnchor(s, t, pc, spurious);
    case FlushRetire(c, pend, sb) => Retires(s, t, sb, Flush(c, pend));
    case FlushList(c, pend, sb) => Lists(s, t, sb, Flush(c, pend));
  }

  lemma FillStepKeeps(s: State, t: nat, spurious: bool, sbNew: nat, junk: Ptr)
    requires Inv(s) && t < |s.th| && !HasPend(s.th[t]) && !s.th[t].Idle?
    requires Shape(s) && Allowed(s, Step(t, spurious, sbNew, junk)) && SplitIsFresh(s, Step(t, spurious, sbNew, junk))
    ensures Inv(DoStep(s, t, spurious, sbNew, junk))
  {
    hide Inv, DoPop, DoList, DoFillPop, DoFillNew, DoTakeLoad, DoTakeCas, DoSplitWalk, DoSplitCas, PlaceInv, PartInv, CacheInv;
    Have(s, t, s.th[t].c);
    match s.th[t]
    case Pop(c) => Pops(s, t);
    case FillPop(c) => Unlists(s, t);
    case FillNew(c) => FillsNew(s, t, sbNew, junk);
    case TakeLoad(c, sb) => TakesPart(s, t);
    case TakeCas(_, _, _) => TakesAll(s, t, s.th[t], spurious);
    case SplitWalk(c, _, _, got, _) =>
      if |got| < s.caches[Key(t, c)].max { WalksOn(s, t); } else { Cuts(s, t); }
    case SplitCas(_, sb, _, _, _, was) =>
      if s.sbs[sb].anchor != was || spurious { SplitRetries(s, t, spurious); } else { SplitSucceeds(s, t); }
    case Relist(c, sb) => Lists(s, t, sb, Pop(c));
  }

  lemma StepKeeps(s: State, a: Act)
    requires Inv(s) && Shape(s) && Allowed(s, a) && SplitIsFresh(s, a)
    ensures Inv(Do(s, a))
  {
    hide Inv, PlaceInv, PartInv, ChainOk, MaxCount, CacheInv, AnchorOk, DoStep, DoPush;
    if a.Release? {
      HaveBlock(s, a.t, a.b);
    } else if a.Malloc? || a.FlushAll? {
      Have(s, a.t, a.c);
    }
    match a
    case Malloc(t, c) =>
      JustMoves(s, t, if s.caches[Key(t, c)].size == 0 then FillPop(c) else Pop(c));
    case Release(t, b) =>
      var c := s.sbs[b.sb].cls;
      if s.caches[Key(t, c)].size > s.caches[Key(t, c)].max { Delays(s, t, c, b); }
      else { Pushes(s, t, c, b); }
    case FlushAll(t, c) => JustMoves(s, t, Flush(c, None));
    case Step(t, spurious, sbNew, junk) =>
      if HasPend(s.th[t]) { FlushStepKeeps(s, t, spurious, sbNew, junk); }
      else { FillStepKeeps(s, t, spurious, sbNew, junk); }
    case Write(b, w) => UserWrites(s, b, w);
  }

  // The invariant is broken by one kind of step only: the CAS of a split that replaces another anchor than
  // the one loaded at line 444.
  lemma StepKeepsIff(s: State, a: Act)
    requires Inv(s) && Shape(s) && Allowed(s, a)
    ensures Inv(Do(s, a)) <==> SplitIsFresh(s, a)
  {
    hide Inv, DoPush, DoSplitCas;
    if SplitIsFresh(s, a) {
      StepKeeps(s, a);
    } else {
      SplitBreaks(s, a.t);
    }
  }

  lemma InitInv(n: nat)
    ensures Inv(Init(n))
  {
    hide MaxCount;
    var s := Init(n);
    forall t, c | 0 <= t < n && 0 <= c < NLIST ensures CacheInv(s, t, c) {
      assert Key(t, c) in s.caches && s.caches[Key(t, c)] == Cache(NIL, 0, InitialMax(c), []);
    }
  }

  // Any run by n threads; and one in which every split replaces the anchor it loaded first.
  ghost predicate AnyRun(tr: seq<State>, acts: seq<Act>, n: nat) {
    && |tr| == |acts| + 1 && tr[0] == Init(n)
    && (forall i :: 0 <= i < |acts| ==>
          Shape(tr[i]) && Allowed(tr[i], acts[i]) && tr[i + 1] == Do(tr[i], acts[i]))
  }

  ghost predicate Run(tr: seq<State>, acts: seq<Act>, n: nat) {
    AnyRun(tr, acts, n) && forall i :: 0 <= i < |acts| ==> SplitIsFresh(tr[i], acts[i])
  }

  lemma {:induction false} RunKeeps(tr: seq<State>, acts: seq<Act>, n: nat, i: nat)
    requires Run(tr, acts, n) && i < |tr|
    ensures Inv(tr[i])
  {
    hide Inv, Do, Shape, Allowed, SplitIsFresh;
    if i == 0 { InitInv(n); }
    else {
      RunKeeps(tr, acts, n, i - 1);
      StepKeeps(tr[i - 1], acts[i - 1]);
    }
  }

  // The invariant holds throughout a run exactly if every split of the run is fresh.
  lemma RunKeepsIff(tr: seq<State>, acts: seq<Act>, n: nat)
    requires AnyRun(tr, acts, n)
    ensures (forall i :: 0 <= i < |tr| ==> Inv(tr[i])) <==> Run(tr, acts, n)
  {
    hide Inv, Do, Shape, Allowed, SplitIsFresh;
    if Run(tr, acts, n) {
      forall i | 0 <= i < |tr| ensures Inv(tr[i]) { RunKeeps(tr, acts, n, i); }
    } else {
      var i :| 0 <= i < |acts| && !SplitIsFresh(tr[i], acts[i]);
      if Inv(tr[i]) { StepKeepsIff(tr[i], acts[i]); }
      assert tr[i + 1] == Do(tr[i], acts[i]);
    }
  }

  // The free chain of a superblock and the contents of a cache, as the memory and the counts give them.
  // While a split is between its null store and its CAS, the rest of the chain hangs on its `rest`.
  function FreeChain(s: State, sb: nat): seq<Blk>
    requires sb in s.sbs
  {
    var d := s.sbs[sb];
    var n := if d.anchor.state.Empty? then MaxCount(d.cls) else d.anchor.count;
    if d.holder.Held? && d.holder.tid < |s.th| && s.th[d.holder.tid].SplitCas? && CutBy(s.th[d.holder.tid]) <= n then
      var pc := s.th[d.holder.tid];
      Walk(s.mem, At(Blk(sb, d.anchor.avail)), n - CutBy(pc)) + Walk(s.mem, pc.rest, CutBy(pc))
    else Walk(s.mem, At(Blk(sb, d.anchor.avail)), n)
  }

  function CacheBlocks(s: State, t: nat, c: nat): seq<Blk>
    requires Key(t, c) in s.caches
  {
    Walk(s.mem, s.caches[Key(t, c)].head, s.caches[Key(t, c)].size)
  }

  lemma ChainIsWalk(s: State, sb: nat)
    requires Inv(s) && sb in s.sbs
    ensures FreeChain(s, sb) == Blks(sb, s.sbs[sb].chain) && NoDup(FreeChain(s, sb))
    ensures forall b: Blk :: b.sb == sb ==> (b in FreeChain(s, sb) <==> In(s, b, Free))
  {
    hide Inv, MaxCount, SbInv, ChainOk, NoDup, In;
    var d := s.sbs[sb];
    WhereCut(s, sb);
    ChainBlocks(s, sb);
    if d.chain != [] {
      ChainWalks(s, sb, d.chain, d.cut);
      assert d.chain[..|d.chain|] == d.chain && Blks(sb, []) == [];
    }
  }

  // The chain is cut exactly while its holder is between the null store and the CAS of a split.
  lemma WhereCut(s: State, sb: nat)
    requires Inv(s) && sb in s.sbs
    ensures var d := s.sbs[sb];
      && SbInv(s, sb) && ChainOk(s, sb, d.chain, d.cut) && (d.chain != [] ==> d.cut < |d.chain| && d.anchor.avail == d.chain[0])
      && |d.chain| == (if d.anchor.state.Empty? then MaxCount(d.cls) else d.anchor.count)
      && (if d.holder.Held? && d.holder.tid < |s.th| && s.th[d.holder.tid].SplitCas? then
            var pc := s.th[d.holder.tid];
            0 < d.cut == CutBy(pc) < |d.chain| && pc.rest == At(Blk(sb, d.chain[|d.chain| - d.cut]))
          else d.cut == 0)
  {
    assert SbInv(s, sb) && HolderInv(s, sb);
    var h := s.sbs[sb].holder;
    if h.Held? { assert PcInv(s, h.tid, s.th[h.tid]); }
    hide MaxCount, Inv, PlaceInv, CacheInv, PartInv, MovingOk, ChainOk;
  }

  lemma ChainBlocks(s: State, sb: nat)
    requires sb in s.sbs && SbInv(s, sb)
    ensures NoDup(Blks(sb, s.sbs[sb].chain)) && forall b: Blk :: b.sb == sb ==> (b in Blks(sb, s.sbs[sb].chain) <==> In(s, b, Free))
  {
    hide MaxCount;
    var chain := s.sbs[sb].chain;
    var bs := Blks(sb, chain);
    assert forall k :: 0 <= k < |bs| ==> bs[k] == Blk(sb, chain[k]);
    forall b: Blk | b.sb == sb && In(s, b, Free) ensures b in bs {
      assert b == Blk(sb, b.i) && b.i in chain;
      var k :| 0 <= k < |chain| && chain[k] == b.i;
      assert bs[k] in bs;
    }
  }

  // The two parts of a chain that may be cut.
  lemma ChainWalks(s: State, sb: nat, chain: seq<nat>, cut: nat)
    requires ChainOk(s, sb, chain, cut) && chain != [] && cut < |chain|
    ensures Walk(s.mem, At(Blk(sb, chain[0])), |chain| - cut) == Blks(sb, chain[..|chain| - cut])
    ensures cut > 0 ==> Walk(s.mem, At(Blk(sb, chain[|chain| - cut])), cut) == Blks(sb, chain[|chain| - cut..])
    ensures Blks(sb, chain) == Blks(sb, chain[..|chain| - cut]) + Blks(sb, chain[|chain| - cut..])
  {
    var front, back := Blks(sb, chain[..|chain| - cut]), Blks(sb, chain[|chain| - cut..]);
    forall k | 0 <= k < |front| - 1 ensures Link(s.mem, front[k]) == At(front[k + 1]) {
      assert Link(s.mem, Blk(sb, chain[k])) == At(Blk(sb, chain[k + 1]));
    }
    forall k | 0 <= k < |back| - 1 ensures Link(s.mem, back[k]) == At(back[k + 1]) {
      var j := |chain| - cut + k;
      assert Link(s.mem, Blk(sb, chain[j])) == At(Blk(sb, chain[j + 1]));
    }
    WalkPrefix(s.mem, front, |front|);
    WalkPrefix(s.mem, back, |back|);
    assert front[..|front|] == front && back[..|back|] == back;
  }

  lemma CacheIsWalk(s: State, t: nat, c: nat)
    requires CacheInv(s, t, c)
    ensures CacheBlocks(s, t, c) == s.caches[Key(t, c)].list && NoDup(CacheBlocks(s, t, c))
    ensures forall b :: b in CacheBlocks(s, t, c) <==> In(s, b, Cached(t, c))
  {
    var list := s.caches[Key(t, c)].list;
    WalkPrefix(s.mem, list, |list|);
    assert list[..|list|] == list;
  }

  // Every block of an in-use superblock has exactly one place (`place` is a function), and the
  // place is the one where the links, counts and thread states put it.
  lemma ExactlyOnePlace(tr: seq<State>, acts: seq<Act>, n: nat, i: nat, b: Blk)
    requires Run(tr, acts, n) && i < |tr| && b.sb in tr[i].sbs && b.i < MaxCount(tr[i].sbs[b.sb].cls)
    ensures var s := tr[i];
            && Shape(s) && b in s.place
            && (s.place[b] == Free <==> b in FreeChain(s, b.sb))
            && (forall t, c :: 0 <= t < |s.th| && 0 <= c < NLIST ==>
                  (s.place[b] == Cached(t, c) <==> b in CacheBlocks(s, t, c)))
            && (forall t :: 0 <= t < |s.th| ==>
                  (s.place[b] == Moving(t) <==> HasRun(s.th[t]) && b in s.th[t].run))
            && (forall t :: 0 <= t < |s.th| ==>
                  (s.place[b] == Pending(t) <==> HasPend(s.th[t]) && s.th[t].pend == Some(b)))
  {
    RunKeeps(tr, acts, n, i);
    var s := tr[i];
    hide Run, MaxCount;
    assert SbInv(s, b.sb);
    ChainIsWalk(s, b.sb);
    assert b == Blk(b.sb, b.i);
    forall t, c | 0 <= t < |s.th| && 0 <= c < NLIST
      ensures s.place[b] == Cached(t, c) <==> b in CacheBlocks(s, t, c)
    {
      assert CacheInv(s, t, c);
      CacheIsWalk(s, t, c);
    }
    hide SbInv, PlaceInv, CacheInv;
    forall t | 0 <= t < |s.th|
      ensures s.place[b] == Moving(t) <==> HasRun(s.th[t]) && b in s.th[t].run
      ensures s.place[b] == Pending(t) <==> HasPend(s.th[t]) && s.th[t].pend == Some(b)
    {
      assert PcInv(s, t, s.th[t]);
      assert In(s, b, Moving(t)) <==> s.place[b] == Moving(t);
      assert In(s, b, Pending(t)) <==> s.place[b] == Pending(t);
    }
  }

  // Only the pop that ends a malloc hands out a block, and that block was in the thread's cache.
  lemma HandedOutFromCache(s: State, a: Act, b: Blk)
    requires Inv(s) && Allowed(s, a) && In(Do(s, a), b, Live) && !In(s, b, Live)
    ensures a.Step? && s.th[a.t].Pop? && In(s, b, Cached(a.t, s.th[a.t].c)) && Do(s, a).th[a.t].Idle?
  {
    hide PlaceInv, PartInv, SbInv, HolderInv, MaxCount, NewMem;
    if a.Step? && s.th[a.t].Pop? {
      assert PcInv(s, a.t, s.th[a.t]) && CacheInv(s, a.t, s.th[a.t].c);
    } else {
      hide CacheInv, PcInv;
      NoLiveOtherwise(s, a, b);
    }
  }

  ghost predicate NoNewLive(s: State, s': State) {
    forall b :: b in s'.place && s'.place[b].Live? ==> b in s.place && s.place[b].Live?
  }

  lemma FlushHandsOutNothing(s: State, t: nat, spurious: bool, sb: nat, junk: Ptr)
    requires Shape(s) && t < |s.th| && HasPend(s.th[t])
    ensures NoNewLive(s, DoStep(s, t, spurious, sb, junk))
  {
    hide MaxCount, FlushAnchor, AfterFlush, Gather, DoFillNew, DoFillPop, DoTakeLoad, DoTakeCas, DoPop;
  }

  lemma FillHandsOutNothing(s: State, t: nat, spurious: bool, sb: nat, junk: Ptr)
    requires Shape(s) && t < |s.th| && (Filling(s.th[t]) || s.th[t].Relist?)
    ensures NoNewLive(s, DoStep(s, t, spurious, sb, junk))
  {
    hide MaxCount, NewMem, Walk, DoDetach, DoFlushCas, DoPush, DoPop, DoFillNew, Remaining, Doubled, Link, Blks, Elems, Idxs;
    var pc := s.th[t];
    if pc.FillNew? {
      NewHandsOutNothing(s, t, pc.c, sb, junk);
    }
  }

  lemma NewHandsOutNothing(s: State, t: nat, c: nat, sb: nat, junk: Ptr)
    requires t < |s.th| && Key(t, c) in s.caches
    ensures NoNewLive(s, DoFillNew(s, t, c, sb, junk))
  {
    hide MaxCount, NewMem;
  }

  lemma NoLiveOtherwise(s: State, a: Act, b: Blk)
    requires Shape(s) && Allowed(s, a) && !(a.Step? && s.th[a.t].Pop?)
    ensures In(Do(s, a), b, Live) ==> In(s, b, Live)
  {
    hide DoStep;
    if a.Step? {
      if HasPend(s.th[a.t]) { FlushHandsOutNothing(s, a.t, a.spurious, a.sbNew, a.junk); }
      else { FillHandsOutNothing(s, a.t, a.spurious, a.sbNew, a.junk); }
    }
  }

  // --- addresses --------------------------------------------------------------------------------

  // Byte offset of a block from the start of the superblock region.
  function Offset(s: State, b: Blk): nat
    requires b.sb in s.sbs
  {
    b.sb * SBSIZE + b.i * BlockSize(s.sbs[b.sb].cls)
  }

  lemma BlockFits(i: nat, size: nat, total: nat)
    requires size > 0 && i < total / size
    ensures (i + 1) * size <= total
  {
    assert (total / size) * size <= total;
    assert (i + 1) * size <= (total / size) * size;
  }

  lemma Scaled(i: nat, j: nat, size: nat)
    requires i < j
    ensures i * size + size <= j * size
  {
    assert (i + 1) * size <= j * size;
  }

  lemma DividesBack(i: nat, size: nat)
    requires size > 0
    ensures (i * size) / size == i
  {
    var q := (i * size) / size;
    assert q * size <= i * size < q * size + size;
    if q < i { Scaled(q, i, size); }
    if i < q { Scaled(i, q, size); }
  }

  // compute_idx and desc_lookup find a block's index and superblock from its address.
  lemma AddressDecodes(sb: nat, i: nat, c: nat)
    requires c < NLIST && i < MaxCount(c)
    ensures var off := sb * SBSIZE + i * BlockSize(c);
            && off / SBSIZE == sb && (off - sb * SBSIZE) / BlockSize(c) == i
            && off + BlockSize(c) <= (sb + 1) * SBSIZE
  {
    var size := BlockSize(c);
    BlockFits(i, size, SBSIZE);
    DividesBack(i, size);
    hide *;
    var r := i * size;
    assert (i + 1) * size == r + size;
    assert r + size <= SBSIZE;
    assert sb * SBSIZE + r - sb * SBSIZE == r;
  }

  // Distinct blocks of in-use superblocks, in particular live ones, never overlap.
  lemma BlocksDisjoint(tr: seq<State>, acts: seq<Act>, n: nat, i: nat, b: Blk, b': Blk)
    requires Run(tr, acts, n) && i < |tr| && b in tr[i].place && b' in tr[i].place && b != b'
    ensures var s := tr[i];
            && b.sb in s.sbs && b'.sb in s.sbs
            && (|| Offset(s, b) + BlockSize(s.sbs[b.sb].cls) <= Offset(s, b')
                || Offset(s, b') + BlockSize(s.sbs[b'.sb].cls) <= Offset(s, b))
  {
    RunKeeps(tr, acts, n, i);
    var s := tr[i];
    hide Run;
    assert SbInv(s, b.sb) && SbInv(s, b'.sb);
    hide SbInv, CacheInv, PcInv, PartInv, HolderInv;
    var c, c' := s.sbs[b.sb].cls, s.sbs[b'.sb].cls;
    assert c < NLIST && c' < NLIST by { ClassBound(s, b.sb); ClassBound(s, b'.sb); }
    AddressDecodes(b.sb, b.i, c);
    AddressDecodes(b'.sb, b'.i, c');
    hide BlockSize, MaxCount;
    if b.sb < b'.sb { Scaled(b.sb, b'.sb, SBSIZE); }
    else if b'.sb < b.sb { Scaled(b'.sb, b.sb, SBSIZE); }
    else if b.i < b'.i { Scaled(b.i, b'.i, BlockSize(c)); }
    else { Scaled(b'.i, b.i, BlockSize(c)); }
  }

  lemma ClassBound(s: State, sb: nat)
    requires sb in s.sbs && SbInv(s, sb)
    ensures s.sbs[sb].cls < NLIST
  {
  }

  // --- anchors, partial lists and retirement -----------------------------------------------------

  // The anchor tells the true number of free blocks; a superblock with free blocks is in its
  // class's partial list, once, unless exactly one thread is processing it.
  lemma AnchorsAndLists(tr: seq<State>, acts: seq<Act>, n: nat, i: nat, sb: nat)
    requires Run(tr, acts, n) && i < |tr| && sb in tr[i].sbs
    ensures var s := tr[i];
            var d := s.sbs[sb];
            && d.cls < NLIST == |s.part| && AnchorOk(d.anchor, Idxs(FreeChain(s, sb)), MaxCount(d.cls))
            && NoDup(s.part[d.cls])
            && (sb in s.part[d.cls] <==>
                  !d.anchor.state.Full? && !exists t :: 0 <= t < |s.th| && Holds(s.th[t]) && s.th[t].sb == sb)
            && (forall c :: 0 <= c < NLIST && c != d.cls ==> sb !in s.part[c])
  {
    RunKeeps(tr, acts, n, i);
    var s := tr[i];
    hide Run, MaxCount;
    assert SbInv(s, sb) && HolderInv(s, sb) && PartInv(s, s.sbs[sb].cls);
    ChainIsWalk(s, sb);
    assert Idxs(FreeChain(s, sb)) == s.sbs[sb].chain;
    hide CacheInv, PlaceInv;
    forall t | 0 <= t < |s.th| && Holds(s.th[t]) && s.th[t].sb == sb ensures s.sbs[sb].holder == Held(t) {
      assert PcInv(s, t, s.th[t]);
    }
    forall c | 0 <= c < NLIST && c != s.sbs[sb].cls ensures sb !in s.part[c] {
      assert PartInv(s, c);
    }
  }

  // The step of thread t is about to erase the descriptor of sb.
  predicate Retiring(s: State, t: nat, sb: nat)
    requires Shape(s) && t < |s.th|
  {
    match s.th[t]
    case FlushRetire(_, _, x) => x == sb
    case TakeCas(_, x, was) => x == sb && was.state.Empty?
    case TakeLoad(c, x) =>
      x == sb && sb in s.sbs && s.sbs[sb].anchor.count > s.caches[Key(t, c)].max && s.sbs[sb].anchor.state.Empty?
    case _ => false
  }

  lemma FlushErases(s: State, t: nat, spurious: bool, sbNew: nat, junk: Ptr, sb: nat)
    requires Shape(s) && t < |s.th| && HasPend(s.th[t])
    requires sb in s.sbs && sb !in DoStep(s, t, spurious, sbNew, junk).sbs
    ensures Retiring(s, t, sb)
  {
    hide MaxCount, DoDetach, DoPush, DoFlushCas, DoList, DoFillNew, DoFillPop, DoTakeLoad, DoTakeCas, DoPop;
    match s.th[t]
    case Flush(c, pend) =>
      DetachKeepsSbs(s, t, c, pend);
      if pend.Some? { PushKeepsSbs(s, t, c, pend.value); }
    case FlushCas(_, _, _, _) => SwapKeepsSbs(s, t, s.th[t], spurious);
    case FlushList(c, pend, x) => ListKeepsSbs(s, t, c, x, Flush(c, pend));
    case _ =>
  }

  lemma DetachKeepsSbs(s: State, t: nat, c: nat, pend: Option<Blk>)
    requires t < |s.th| && Key(t, c) in s.caches
    ensures DoDetach(s, t, c, pend).sbs == s.sbs
  {
  }

  lemma PushKeepsSbs(s: State, t: nat, c: nat, b: Blk)
    requires t < |s.th| && Key(t, c) in s.caches
    ensures DoPush(s, t, c, b).sbs == s.sbs
  {
  }

  lemma SwapKeepsSbs(s: State, t: nat, pc: Pc, spurious: bool)
    requires t < |s.th| && pc.FlushCas?
    ensures s.sbs.Keys <= DoFlushCas(s, t, pc, spurious).sbs.Keys
  {
    hide MaxCount, FlushAnchor, AfterFlush, Moved;
  }

  lemma ListKeepsSbs(s: State, t: nat, c: nat, sb: nat, pc: Pc)
    requires t < |s.th| && c < |s.part|
    ensures s.sbs.Keys <= DoList(s, t, c, sb, pc).sbs.Keys
  {
  }

  lemma TakeErases(s: State, t: nat, spurious: bool, sbNew: nat, junk: Ptr, sb: nat)
    requires Shape(s) && t < |s.th| && (s.th[t].TakeLoad? || s.th[t].TakeCas?)
    requires sb in s.sbs && sb !in DoStep(s, t, spurious, sbNew, junk).sbs
    ensures Retiring(s, t, sb)
  {
    hide MaxCount, Walk, Moved, DoFillNew, DoFillPop, DoList, DoPop;
  }

  lemma FillErases(s: State, t: nat, spurious: bool, sbNew: nat, junk: Ptr)
    requires Shape(s) && t < |s.th| && (s.th[t].FillPop? || s.th[t].FillNew? || Splits(s.th[t]) || s.th[t].Relist? || s.th[t].Pop?)
    ensures s.sbs.Keys <= DoStep(s, t, spurious, sbNew, junk).sbs.Keys
  {
    hide MaxCount, DoPop, DoFillPop, DoFillNew, DoSplitWalk, DoSplitCas, DoList, DoTakeLoad, DoTakeCas;
    var pc := s.th[t];
    match pc
    case Pop(c) => PopKeepsSbs(s, t, c);
    case FillPop(c) => UnlistKeepsSbs(s, t, c);
    case FillNew(c) => NewKeepsSbs(s, t, c, sbNew, junk);
    case SplitWalk(_, _, _, _, _) => WalkKeepsSbs(s, t, pc);
    case SplitCas(_, _, _, _, _, _) => SplitKeepsSbs(s, t, pc, spurious);
    case Relist(c, sb) => ListKeepsSbs(s, t, c, sb, Pop(c));
  }

  lemma PopKeepsSbs(s: State, t: nat, c: nat)
    requires t < |s.th| && Key(t, c) in s.caches
    ensures DoPop(s, t, c).sbs == s.sbs
  {
  }

  lemma UnlistKeepsSbs(s: State, t: nat, c: nat)
    requires t < |s.th| && c < |s.part|
    ensures s.sbs.Keys <= DoFillPop(s, t, c).sbs.Keys
  {
  }

  lemma NewKeepsSbs(s: State, t: nat, c: nat, sb: nat, junk: Ptr)
    requires t < |s.th| && Key(t, c) in s.caches
    ensures s.sbs.Keys <= DoFillNew(s, t, c, sb, junk).sbs.Keys
  {
    hide MaxCount, NewMem, NewPlace;
  }

  lemma WalkKeepsSbs(s: State, t: nat, pc: Pc)
    requires t < |s.th| && pc.SplitWalk? && Key(t, pc.c) in s.caches
    ensures s.sbs.Keys <= DoSplitWalk(s, t, pc).sbs.Keys
  {
  }

  lemma SplitKeepsSbs(s: State, t: nat, pc: Pc, spurious: bool)
    requires t < |s.th| && pc.SplitCas? && Key(t, pc.c) in s.caches
    ensures s.sbs.Keys <= DoSplitCas(s, t, pc, spurious).sbs.Keys
  {
    hide MaxCount, Moved;
  }

  lemma OnlyRetiringErases(s: State, a: Act, sb: nat)
    requires Shape(s) && Allowed(s, a) && sb in s.sbs && sb !in Do(s, a).sbs
    ensures a.Step? && Retiring(s, a.t, sb)
  {
    hide DoStep;
    if a.Step? {
      if HasPend(s.th[a.t]) { FlushErases(s, a.t, a.spurious, a.sbNew, a.junk, sb); }
      else if s.th[a.t].TakeLoad? || s.th[a.t].TakeCas? { TakeErases(s, a.t, a.spurious, a.sbNew, a.junk, sb); }
      else { FillErases(s, a.t, a.spurious, a.sbNew, a.junk); }
    }
  }

  // A superblock is retired only when all its blocks are on its free chain.
  lemma RetiredOnlyWhenFree(tr: seq<State>, acts: seq<Act>, n: nat, i: nat, sb: nat)
    requires Run(tr, acts, n) && i < |acts| && sb in tr[i].sbs && sb !in tr[i + 1].sbs
    ensures forall b :: b in tr[i].place && b.sb == sb ==> tr[i].place[b].Free?
    ensures sb in tr[i + 1].gone
  {
    RunKeeps(tr, acts, n, i);
    RunKeeps(tr, acts, n, i + 1);
    var s, a := tr[i], acts[i];
    OnlyRetiringErases(s, a, sb);
    assert PcInv(s, a.t, s.th[a.t]) && SbInv(s, sb);
    hide CacheInv, PartInv, HolderInv, MaxCount, MovingOk;
    EmptyMeansAllFree(s, sb);
  }
}
