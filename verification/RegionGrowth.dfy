/**
 Growth of the superblock region: threads bump the shared end address by compare-and-swap, either for
 a range of their own or, when the queue of free superblock indices is empty, for a batch of
 superblocks that they then put on that queue.  One step per load, CAS, pop or push; the queue is
 first in, first out, as the array queue provides it.

 Ranges of any size come out disjoint.  That superblocks have one owner needs sizes that are multiples
 of a superblock, which is what every caller asks for; `BatchIsSoundIff` shows that a batch is sound
 exactly because of the alignment this gives.
 */
module RegionGrowth {

  import opened Arithmetic
  import opened Common

  const PAGE: nat := 4096
  const BATCH: nat := 16384

  datatype Range = Range(lo: nat, hi: nat, alignment: nat)

  datatype Pc =
    | Idle
    | RegionLoad(alignment: nat, size: nat)
    | RegionCas(seen: nat, range: Range)
    | SbPop
    | SbLoad
    | SbCas(seen: nat, res: nat)
    | SbPush(first: nat, i: nat, hi: nat)

  // Auxiliary: the ranges granted and the superblocks handed out, in order, and where batches start.
  datatype State = State(base: nat, fileEnd: nat, curr: nat, queue: seq<nat>, th: seq<Pc>, aborted: bool,
                         ranges: seq<Range>, owned: seq<nat>, batches: seq<nat>)

  datatype Choice = Region(alignment: nat, size: nat) | Superblock | Continue
  datatype Act = Act(tid: nat, choice: Choice)

  predicate IsPow2(n: nat) {
    n == 1 || (n > 1 && n % 2 == 0 && IsPow2(n / 2))
  }

  function AlignUp(a: nat, alignment: nat): nat
    requires alignment > 0
  {
    if a % alignment == 0 then a else a + (alignment - a % alignment)
  }

  // desc_lookup's index of the superblock over an address.
  function IndexOf(s: State, a: nat): nat {
    if a / SBSIZE >= s.base / SBSIZE then a / SBSIZE - s.base / SBSIZE else 0
  }

  // sb_lookup
  function SbAddr(s: State, x: nat): nat {
    s.base + x * SBSIZE
  }

  predicate Allowed(s: State, a: Act) {
    a.tid < |s.th| && !s.aborted && (s.th[a.tid].Idle? <==> !a.choice.Continue?)
  }

  function Goto(s: State, t: nat, pc: Pc): State
    requires t < |s.th|
  {
    s.(th := s.th[t := pc])
  }

  // Requests the region allocator rejects at once.
  predicate BadRequest(alignment: nat, size: nat) {
    size == 0 || !IsPow2(alignment) || alignment < 8
  }

  function Do(s: State, a: Act): State
    requires Allowed(s, a)
  {
    var t, pc := a.tid, s.th[a.tid];
    match pc
    case Idle =>
      if a.choice.Superblock? then Goto(s, t, SbPop)
      else if BadRequest(a.choice.alignment, a.choice.size) then s
      else Goto(s, t, RegionLoad(a.choice.alignment, a.choice.size))
    case RegionLoad(alignment, size) =>
      if alignment == 0 then s else
        var res := AlignUp(s.curr, alignment);
        Goto(s, t, if res + size > s.fileEnd then Idle else RegionCas(s.curr, Range(res, res + size, alignment)))
    case RegionCas(seen, range) =>
      if s.curr == seen then Goto(s, t, Idle).(curr := range.hi, ranges := s.ranges + [range]) else Goto(s, t, Idle)
    case SbPop =>
      if s.queue == [] then Goto(s, t, SbLoad)
      else Goto(s, t, Idle).(owned := s.owned + [s.queue[0]], queue := s.queue[1..])
    case SbLoad =>
      var res := AlignUp(s.curr, PAGE);
      if res + BATCH * SBSIZE > s.fileEnd then s.(aborted := true) else Goto(s, t, SbCas(s.curr, res))
    case SbCas(seen, res) =>
      if s.curr == seen then
        var i := IndexOf(s, res + SBSIZE);
        Goto(s, t, SbPush(IndexOf(s, res), i, i + BATCH - 1))
          .(curr := res + BATCH * SBSIZE, ranges := s.ranges + [Range(res, res + BATCH * SBSIZE, PAGE)],
            batches := s.batches + [res])
      else Goto(s, t, SbPop)
    case SbPush(first, i, hi) =>
      if i < hi then Goto(s, t, SbPush(first, i + 1, hi)).(queue := s.queue + [i])
      else Goto(s, t, Idle).(owned := s.owned + [first])
  }

  function Upto(lo: nat, hi: nat): (q: seq<nat>)
    ensures |q| == (if lo < hi then hi - lo else 0) && forall k :: 0 <= k < |q| ==> q[k] == lo + k
    decreases hi - lo
  {
    if lo < hi then [lo] + Upto(lo + 1, hi) else []
  }

  // The first batch is granted at start-up; its first superblock is never put on the queue.
  function Init(base: nat, fileEnd: nat, n: nat): State {
    State(base, fileEnd, base + BATCH * SBSIZE, Upto(1, BATCH), seq(n, _ => Idle), false,
          [Range(base, base + BATCH * SBSIZE, SBSIZE)], [], [base])
  }

  // --- invariant -----------------------------------------------------------------------------------------

  predicate Multiple(a: nat) {
    a % SBSIZE == 0
  }

  predicate Bounds(s: State) {
    Multiple(s.base) && Multiple(s.curr) && s.base < s.curr <= s.fileEnd
  }

  predicate RangesInv(s: State) {
    && (forall i :: 0 <= i < |s.ranges| ==>
          s.base <= s.ranges[i].lo < s.ranges[i].hi <= s.curr && s.ranges[i].alignment > 0 && s.ranges[i].lo % s.ranges[i].alignment == 0)
    && (forall i, j :: 0 <= i < j < |s.ranges| ==> s.ranges[i].hi <= s.ranges[j].lo)
  }

  predicate Pending(pc: Pc, x: nat) {
    pc.SbPush? && (x == pc.first || pc.i <= x < pc.hi)
  }

  predicate PcInv(s: State, pc: Pc) {
    match pc
    case RegionLoad(alignment, size) => IsPow2(alignment) && alignment >= 8 && Multiple(size) && size > 0
    case RegionCas(seen, r) =>
      && seen <= s.curr && seen <= r.lo < r.hi <= s.fileEnd && Multiple(r.hi) && r.alignment > 0 && r.lo % r.alignment == 0
    case SbCas(seen, res) => seen <= s.curr && seen <= res && Multiple(res) && res + BATCH * SBSIZE <= s.fileEnd
    case SbPush(first, i, hi) => 0 < first < i <= hi && SbAddr(s, hi) <= s.curr
    case _ => true
  }

  // Every index is in one place: on the queue, about to be put there, or handed out.
  ghost predicate Distinct(s: State) {
    && (forall i, j :: 0 <= i < j < |s.queue| ==> s.queue[i] != s.queue[j])
    && (forall i, j :: 0 <= i < j < |s.owned| ==> s.owned[i] != s.owned[j])
    && (forall x :: x in s.queue ==> x !in s.owned)
    && (forall t, x {:trigger Pending(s.th[t], x)} :: 0 <= t < |s.th| && Pending(s.th[t], x) ==> x !in s.queue && x !in s.owned)
    && (forall t, u, x {:trigger Pending(s.th[t], x), Pending(s.th[u], x)} ::
          0 <= t < u < |s.th| ==> !(Pending(s.th[t], x) && Pending(s.th[u], x)))
  }

  // Claimed superblocks lie below the end of the region, and the first one is not claimed.
  predicate Claimed(s: State) {
    && (forall x :: x in s.queue ==> 0 < x && SbAddr(s, x) + SBSIZE <= s.curr)
    && (forall x :: x in s.owned ==> 0 < x && SbAddr(s, x) + SBSIZE <= s.curr)
  }

  ghost predicate Inv(s: State) {
    && Bounds(s) && RangesInv(s) && Distinct(s) && Claimed(s)
    && (forall t {:trigger s.th[t]} :: 0 <= t < |s.th| ==> PcInv(s, s.th[t]))
  }

  // Ranges taken from this region have sizes that are multiples of a superblock.
  predicate WholeSbs(a: Act) {
    a.choice.Region? ==> Multiple(a.choice.size)
  }

  // --- arithmetic -----------------------------------------------------------------------------------------

  lemma {:induction false} PowersDivide(a: nat, b: nat)
    requires IsPow2(a) && IsPow2(b) && a <= b
    ensures b % a == 0
  {
    if a > 1 {
      PowersDivide(a / 2, b / 2);
      var q := (b / 2) / (a / 2);
      assert b / 2 == q * (a / 2);
      TimesTwo(q, a / 2);
      Unique(b, a, q, 0);
    }
  }

  lemma Aligned(a: nat, alignment: nat)
    requires alignment > 0
    ensures AlignUp(a, alignment) >= a && AlignUp(a, alignment) % alignment == 0
  {
    var q, r := a / alignment, a % alignment;
    assert a == q * alignment + r;
    if r > 0 {
      assert AlignUp(a, alignment) == q * alignment + alignment;
      assert q * alignment + alignment == (q + 1) * alignment;
      Unique(AlignUp(a, alignment), alignment, q + 1, 0);
    }
  }

  lemma SbIsPow2()
    ensures IsPow2(SBSIZE) && IsPow2(PAGE)
  {
    assert IsPow2(1) && IsPow2(2) && IsPow2(4) && IsPow2(8) && IsPow2(16) && IsPow2(32) && IsPow2(64) && IsPow2(128);
    assert IsPow2(256) && IsPow2(512) && IsPow2(1024) && IsPow2(2048) && IsPow2(4096);
    assert IsPow2(8192) && IsPow2(16384) && IsPow2(32768) && IsPow2(65536);
  }

  // From a superblock boundary any power-of-two alignment leads to a superblock boundary.
  lemma StaysOnBoundary(a: nat, alignment: nat)
    requires Multiple(a) && IsPow2(alignment)
    ensures AlignUp(a, alignment) >= a && Multiple(AlignUp(a, alignment)) && AlignUp(a, alignment) % alignment == 0
  {
    hide IsPow2;
    SbIsPow2();
    assert alignment > 0 by { Positive(alignment); }
    Aligned(a, alignment);
    if alignment <= SBSIZE {
      PowersDivide(alignment, SBSIZE);
      DividesThrough(a, SBSIZE, alignment);
    } else {
      PowersDivide(SBSIZE, alignment);
      DividesThrough(AlignUp(a, alignment), alignment, SBSIZE);
    }
  }

  lemma Positive(n: nat)
    requires IsPow2(n)
    ensures n > 0
  {
  }

  // The first superblock of a batch, used in place, and those put on the queue, found again by index,
  // do not overlap exactly if the batch starts on a superblock boundary.
  lemma BatchIsSoundIff(s: State, res: nat)
    requires Multiple(s.base) && res >= s.base
    ensures SbAddr(s, IndexOf(s, res + SBSIZE)) >= res + SBSIZE <==> Multiple(res)
  {
  }

  // --- steps --------------------------------------------------------------------------------------------------

  lemma AddrOrder(s: State, x: nat, y: nat)
    ensures x < y ==> SbAddr(s, x) + SBSIZE <= SbAddr(s, y)
  {
  }

  // Everything claimed lies below curr, so the indices of a new batch are claimed by no one.
  lemma NewIndex(s: State, x: nat)
    requires Inv(s) && SbAddr(s, x) >= s.curr
    ensures x !in s.queue && x !in s.owned && forall u :: 0 <= u < |s.th| ==> !Pending(s.th[u], x)
  {
  }

  lemma Conclude(s: State, s': State, t: nat)
    requires Inv(s) && t < |s.th| && |s'.th| == |s.th| && s.curr <= s'.curr && s'.base == s.base && s'.fileEnd == s.fileEnd
    requires forall u :: 0 <= u < |s.th| && u != t ==> s'.th[u] == s.th[u]
    requires Bounds(s') && RangesInv(s') && Distinct(s') && Claimed(s') && PcInv(s', s'.th[t])
    ensures Inv(s')
  {
  }

  // A step of one thread that claims nothing.
  lemma Moves(s: State, t: nat, pc: Pc)
    requires Inv(s) && t < |s.th| && PcInv(s, pc) && !s.th[t].SbPush? && !pc.SbPush?
    ensures Inv(Goto(s, t, pc))
  {
    var s' := Goto(s, t, pc);
    assert forall u, x :: 0 <= u < |s'.th| && Pending(s'.th[u], x) ==> u != t && Pending(s.th[u], x);
    assert Distinct(s');
    hide Distinct;
    Conclude(s, s', t);
  }

  // A range granted by a successful CAS starts at or behind all granted so far.
  lemma Grants(s: State, t: nat, r: Range, s': State)
    requires Bounds(s) && RangesInv(s) && s.curr <= r.lo < r.hi <= s.fileEnd && Multiple(r.hi) && r.alignment > 0 && r.lo % r.alignment == 0
    requires s' == s.(curr := r.hi, ranges := s.ranges + [r], th := s'.th, queue := s'.queue, owned := s'.owned, batches := s'.batches)
    ensures Bounds(s') && RangesInv(s')
  {
  }

  lemma RegionGrants(s: State, a: Act)
    requires Inv(s) && Allowed(s, a) && s.th[a.tid].RegionCas?
    ensures Inv(Do(s, a))
  {
    var t, pc, s' := a.tid, s.th[a.tid], Do(s, a);
    assert PcInv(s, pc);
    if s.curr == pc.seen {
      Grants(s, t, pc.range, s');
      assert forall u, x :: 0 <= u < |s'.th| && Pending(s'.th[u], x) ==> u != t && Pending(s.th[u], x);
      assert Distinct(s') && Claimed(s');
      hide Distinct, RangesInv, Claimed;
      Conclude(s, s', t);
    } else {
      Moves(s, t, Idle);
    }
  }

  lemma BatchFacts(s: State, res: nat)
    requires Bounds(s) && Multiple(res) && res >= s.curr
    ensures var first := IndexOf(s, res);
      && 0 < first && IndexOf(s, res + SBSIZE) == first + 1 && SbAddr(s, first) == res && SbAddr(s, first + BATCH) == res + BATCH * SBSIZE
      && Multiple(res + BATCH * SBSIZE)
  {
  }

  lemma BatchGrants(s: State, a: Act)
    requires Inv(s) && Allowed(s, a) && s.th[a.tid].SbCas? && s.curr == s.th[a.tid].seen
    ensures Inv(Do(s, a))
  {
    var t, pc, s' := a.tid, s.th[a.tid], Do(s, a);
    assert PcInv(s, pc);
    BatchFacts(s, pc.res);
    SbIsPow2();
    StaysOnPage(pc.res);
    Grants(s, t, Range(pc.res, pc.res + BATCH * SBSIZE, PAGE), s');
    var first := IndexOf(s, pc.res);
    assert s'.th[t] == SbPush(first, first + 1, first + BATCH);
    hide Bounds, RangesInv, IndexOf;
    forall x | Pending(s'.th[t], x) ensures x !in s.queue && x !in s.owned && forall u :: 0 <= u < |s.th| ==> !Pending(s.th[u], x) {
      AddrOrder(s, first, x);
      NewIndex(s, x);
    }
    assert Distinct(s') && Claimed(s');
    hide Distinct, Claimed;
    Conclude(s, s', t);
  }

  lemma StaysOnPage(a: nat)
    requires Multiple(a)
    ensures a % PAGE == 0
  {
  }

  // pop: the index moves from the queue to its owner.
  lemma Pops(s: State, a: Act)
    requires Inv(s) && Allowed(s, a) && s.th[a.tid].SbPop?
    ensures Inv(Do(s, a))
  {
    hide Distinct, Claimed, RangesInv, Bounds, Pending;
    var t := a.tid;
    if s.queue == [] {
      Moves(s, t, SbLoad);
    } else {
      var s' := Goto(s, t, Idle).(owned := s.owned + [s.queue[0]], queue := s.queue[1..]);
      PopDistinct(s, t, s');
      PopClaimed(s, s');
      assert Bounds(s') && RangesInv(s') by { PopRanges(s, s'); }
      Conclude(s, s', t);
    }
  }

  lemma PopDistinct(s: State, t: nat, s': State)
    requires Distinct(s) && t < |s.th| && s.th[t].SbPop? && s.queue != []
    requires s' == Goto(s, t, Idle).(owned := s.owned + [s.queue[0]], queue := s.queue[1..])
    ensures Distinct(s')
  {
    var x0 := s.queue[0];
    assert s.queue == [x0] + s.queue[1..] && x0 !in s.queue[1..] && x0 in s.queue && x0 !in s.owned;
    assert forall x :: x in s.queue[1..] ==> x in s.queue;
    assert forall x :: x in s'.owned <==> x in s.owned || x == x0;
    assert forall u, x :: 0 <= u < |s'.th| && Pending(s'.th[u], x) ==> u != t && Pending(s.th[u], x);
  }

  lemma PopClaimed(s: State, s': State)
    requires Claimed(s) && s.queue != [] && s' == s.(owned := s.owned + [s.queue[0]], queue := s.queue[1..], th := s'.th)
    ensures Claimed(s')
  {
    assert forall x :: x in s.queue[1..] ==> x in s.queue;
    assert s.queue[0] in s.queue;
  }

  lemma PopRanges(s: State, s': State)
    requires Bounds(s) && RangesInv(s) && s' == s.(owned := s'.owned, queue := s'.queue, th := s'.th)
    ensures Bounds(s') && RangesInv(s')
  {
  }

  // push: the next index of the batch goes on the queue, or the first one to the caller.
  lemma Pushes(s: State, a: Act)
    requires Inv(s) && Allowed(s, a) && s.th[a.tid].SbPush?
    ensures Inv(Do(s, a))
  {
    var t, pc, s' := a.tid, s.th[a.tid], Do(s, a);
    assert PcInv(s, pc);
    var x0 := if pc.i < pc.hi then pc.i else pc.first;
    AddrOrder(s, x0, pc.hi);
    assert Pending(pc, x0);
    assert forall u, x :: 0 <= u < |s'.th| && Pending(s'.th[u], x) ==> Pending(s.th[u], x) && x != x0;
    assert Distinct(s') && Claimed(s');
    hide Distinct, Claimed, RangesInv;
    Conclude(s, s', t);
  }

  lemma Begins(s: State, a: Act)
    requires Inv(s) && Allowed(s, a) && WholeSbs(a) && s.th[a.tid].Idle?
    ensures Inv(Do(s, a))
  {
    hide Distinct, RangesInv, Claimed, Bounds;
    if a.choice.Superblock? { Moves(s, a.tid, SbPop); }
    else if !BadRequest(a.choice.alignment, a.choice.size) { Moves(s, a.tid, RegionLoad(a.choice.alignment, a.choice.size)); }
  }

  lemma RegionLoads(s: State, a: Act)
    requires Inv(s) && Allowed(s, a) && s.th[a.tid].RegionLoad?
    ensures Inv(Do(s, a))
  {
    hide Distinct, RangesInv, Claimed, IsPow2, AlignUp;
    var pc := s.th[a.tid];
    assert PcInv(s, pc);
    StaysOnBoundary(s.curr, pc.alignment);
    var res := AlignUp(s.curr, pc.alignment);
    Moves(s, a.tid, if res + pc.size > s.fileEnd then Idle else RegionCas(s.curr, Range(res, res + pc.size, pc.alignment)));
  }

  lemma BatchLoads(s: State, a: Act)
    requires Inv(s) && Allowed(s, a) && (s.th[a.tid].SbLoad? || (s.th[a.tid].SbCas? && s.curr != s.th[a.tid].seen))
    ensures Inv(Do(s, a))
  {
    hide Distinct, RangesInv, Claimed, IsPow2, AlignUp;
    if s.th[a.tid].SbCas? {
      Moves(s, a.tid, SbPop);
    } else {
      SbIsPow2();
      StaysOnBoundary(s.curr, PAGE);
      var res := AlignUp(s.curr, PAGE);
      if res + BATCH * SBSIZE > s.fileEnd { Aborts(s); } else { Moves(s, a.tid, SbCas(s.curr, res)); }
    }
  }

  lemma Aborts(s: State)
    requires Inv(s)
    ensures Inv(s.(aborted := true))
  {
  }

  lemma StepKeeps(s: State, a: Act)
    requires Inv(s) && Allowed(s, a) && WholeSbs(a)
    ensures Inv(Do(s, a))
  {
    hide Inv, Do;
    var pc := s.th[a.tid];
    if pc.RegionCas? { RegionGrants(s, a); }
    else if pc.SbCas? && s.curr == pc.seen { BatchGrants(s, a); }
    else if pc.SbPop? { Pops(s, a); }
    else if pc.SbPush? { Pushes(s, a); }
    else if pc.Idle? { Begins(s, a); }
    else if pc.RegionLoad? { RegionLoads(s, a); }
    else { BatchLoads(s, a); }
  }

  // --- runs -----------------------------------------------------------------------------------------------------

  ghost predicate Run(tr: seq<State>, acts: seq<Act>, base: nat, fileEnd: nat, n: nat) {
    && |tr| == |acts| + 1 && tr[0] == Init(base, fileEnd, n) && Multiple(base) && base + BATCH * SBSIZE <= fileEnd
    && forall i :: 0 <= i < |acts| ==> Allowed(tr[i], acts[i]) && tr[i + 1] == Do(tr[i], acts[i])
  }

  ghost predicate AllWholeSbs(acts: seq<Act>) {
    forall i :: 0 <= i < |acts| ==> WholeSbs(acts[i])
  }

  lemma InitInv(base: nat, fileEnd: nat, n: nat)
    requires Multiple(base) && base + BATCH * SBSIZE <= fileEnd
    ensures Inv(Init(base, fileEnd, n))
  {
    var s := Init(base, fileEnd, n);
    forall x | x in s.queue ensures 0 < x && SbAddr(s, x) + SBSIZE <= s.curr { AddrOrder(s, x, BATCH); }
  }

  lemma {:induction false} RunKeeps(tr: seq<State>, acts: seq<Act>, base: nat, fileEnd: nat, n: nat, i: nat)
    requires Run(tr, acts, base, fileEnd, n) && AllWholeSbs(acts) && i < |tr|
    ensures Inv(tr[i])
  {
    hide Inv, Do;
    if i == 0 {
      InitInv(base, fileEnd, n);
    } else {
      RunKeeps(tr, acts, base, fileEnd, n, i - 1);
      StepKeeps(tr[i - 1], acts[i - 1]);
    }
  }

  // What concerns the ranges alone, whatever their sizes.
  predicate RangePc(s: State, pc: Pc) {
    match pc
    case RegionLoad(alignment, size) => alignment > 0 && size > 0
    case RegionCas(seen, r) => seen <= r.lo < r.hi <= s.fileEnd && r.alignment > 0 && r.lo % r.alignment == 0
    case SbCas(seen, res) => seen <= res && res % PAGE == 0 && res + BATCH * SBSIZE <= s.fileEnd
    case _ => true
  }

  ghost predicate RangePart(s: State) {
    && s.base <= s.curr <= s.fileEnd && RangesInv(s)
    && forall t {:trigger s.th[t]} :: 0 <= t < |s.th| ==> RangePc(s, s.th[t])
  }

  lemma RangeStep(s: State, a: Act)
    requires RangePart(s) && Allowed(s, a)
    ensures RangePart(Do(s, a))
  {
    hide IsPow2, AlignUp, IndexOf;
    var pc, s' := s.th[a.tid], Do(s, a);
    if pc.Idle? && a.choice.Region? && !BadRequest(a.choice.alignment, a.choice.size) { Positive(a.choice.alignment); }
    if pc.RegionLoad? { Aligned(s.curr, pc.alignment); }
    if pc.SbLoad? { Aligned(s.curr, PAGE); }
    assert RangePc(s, pc);
    assert RangePc(s', s'.th[a.tid]);
    assert RangesInv(s');
  }

  lemma {:induction false} RunRanges(tr: seq<State>, acts: seq<Act>, base: nat, fileEnd: nat, n: nat, i: nat)
    requires Run(tr, acts, base, fileEnd, n) && i < |tr|
    ensures RangePart(tr[i])
  {
    hide Do;
    if i > 0 {
      RunRanges(tr, acts, base, fileEnd, n, i - 1);
      hide RangePart, Allowed;
      RangeStep(tr[i - 1], acts[i - 1]);
    }
  }

  // In every run the ranges handed out are aligned, inside the file and pairwise disjoint.
  lemma RangesAreDisjoint(tr: seq<State>, acts: seq<Act>, base: nat, fileEnd: nat, n: nat, i: nat, j: nat, k: nat)
    requires Run(tr, acts, base, fileEnd, n) && i < |tr| && j < k < |tr[i].ranges|
    ensures var r, r' := tr[i].ranges[j], tr[i].ranges[k];
      tr[i].base <= r.lo < r.hi <= r'.lo < r'.hi <= tr[i].fileEnd && r'.alignment > 0 && r'.lo % r'.alignment == 0
  {
    RunRanges(tr, acts, base, fileEnd, n, i);
    hide Run;
  }

  // No superblock has two owners or is on the queue while owned, none is on the queue twice, owned
  // superblocks are disjoint, and the first superblock of the region is never handed out.
  lemma OneOwner(tr: seq<State>, acts: seq<Act>, base: nat, fileEnd: nat, n: nat, i: nat, j: nat, k: nat)
    requires Run(tr, acts, base, fileEnd, n) && AllWholeSbs(acts) && i < |tr| && j < k
    ensures k < |tr[i].owned| ==> tr[i].owned[j] != tr[i].owned[k]
    ensures k < |tr[i].queue| ==> tr[i].queue[j] != tr[i].queue[k]
    ensures forall x :: x in tr[i].owned ==> x !in tr[i].queue && x > 0
    ensures k < |tr[i].owned| ==>
      var a, b := SbAddr(tr[i], tr[i].owned[j]), SbAddr(tr[i], tr[i].owned[k]); a + SBSIZE <= b || b + SBSIZE <= a
  {
    RunKeeps(tr, acts, base, fileEnd, n, i);
    hide Run, RangesInv;
    if k < |tr[i].owned| {
      AddrOrder(tr[i], tr[i].owned[j], tr[i].owned[k]);
      AddrOrder(tr[i], tr[i].owned[k], tr[i].owned[j]);
    }
  }

  // --- no superblock is lost -----------------------------------------------------------------------------

  ghost predicate Placed(s: State, x: nat) {
    x in s.queue || x in s.owned || exists t :: 0 <= t < |s.th| && Pending(s.th[t], x)
  }

  predicate InBatch(s: State, x: nat, b: nat) {
    b <= SbAddr(s, x) < b + BATCH * SBSIZE
  }

  ghost predicate AllPlaced(s: State) {
    forall b, x: nat {:trigger InBatch(s, x, b)} :: b in s.batches && x > 0 && InBatch(s, x, b) ==> Placed(s, x)
  }

  lemma NewBatchPlaced(s: State, a: Act, x: nat)
    requires Inv(s) && Allowed(s, a) && s.th[a.tid].SbCas? && s.curr == s.th[a.tid].seen && InBatch(s, x, s.th[a.tid].res)
    ensures Pending(Do(s, a).th[a.tid], x)
  {
    var res := s.th[a.tid].res;
    assert PcInv(s, s.th[a.tid]);
    BatchFacts(s, res);
    var first := IndexOf(s, res);
    AddrOrder(s, x, first);
    AddrOrder(s, first + BATCH, x);
    hide IndexOf;
  }

  // What is in a place stays in one.
  lemma StaysPlaced(s: State, a: Act, x: nat)
    requires Allowed(s, a) && Placed(s, x)
    ensures Placed(Do(s, a), x)
  {
    var t, pc, s' := a.tid, s.th[a.tid], Do(s, a);
    hide IndexOf, AlignUp, IsPow2;
    if x in s.queue {
      assert s.queue == [s.queue[0]] + s.queue[1..];
    } else if x !in s.owned {
      var u :| 0 <= u < |s.th| && Pending(s.th[u], x);
      assert u != t ==> s'.th[u] == s.th[u];
      if u == t && pc.SbPush? {
        assert if pc.i < pc.hi && x == pc.i then x in s'.queue else if pc.i < pc.hi then Pending(s'.th[t], x) else x in s'.owned;
      }
    }
  }

  lemma StepPlaces(s: State, a: Act)
    requires Inv(s) && AllPlaced(s) && Allowed(s, a)
    ensures AllPlaced(Do(s, a))
  {
    var s' := Do(s, a);
    BatchesGrow(s, a);
    hide Do, Inv, Placed, Allowed;
    forall b, x: nat {:trigger InBatch(s', x, b)} | b in s'.batches && x > 0 && InBatch(s', x, b) ensures Placed(s', x) {
      if b in s.batches {
        assert InBatch(s, x, b);
        StaysPlaced(s, a, x);
      } else {
        NewBatchPlaced(s, a, x);
        PendingIsPlaced(s', a.tid, x);
      }
    }
  }

  lemma BatchesGrow(s: State, a: Act)
    requires Allowed(s, a)
    ensures var s', pc := Do(s, a), s.th[a.tid];
      && s'.base == s.base && |s'.th| == |s.th|
      && forall b :: b in s'.batches && b !in s.batches ==> pc.SbCas? && s.curr == pc.seen && b == pc.res
  {
  }

  lemma PendingIsPlaced(s: State, t: nat, x: nat)
    requires t < |s.th| && Pending(s.th[t], x)
    ensures Placed(s, x)
  {
  }

  lemma InitPlaced(base: nat, fileEnd: nat, n: nat)
    ensures AllPlaced(Init(base, fileEnd, n))
  {
    var s := Init(base, fileEnd, n);
    forall b, x: nat {:trigger InBatch(s, x, b)} | b in s.batches && x > 0 && InBatch(s, x, b) ensures Placed(s, x) {
      assert s.queue[x - 1] == x;
    }
  }

  // Every superblock of a batch, the first one of the region apart, is queued, about to be queued or
  // handed out, or owned; by OneOwner only one of these.
  lemma {:induction false} NoneLost(tr: seq<State>, acts: seq<Act>, base: nat, fileEnd: nat, n: nat, i: nat)
    requires Run(tr, acts, base, fileEnd, n) && AllWholeSbs(acts) && i < |tr|
    ensures AllPlaced(tr[i])
  {
    hide Inv, Do, AllPlaced, Allowed, Init;
    if i == 0 {
      InitPlaced(base, fileEnd, n);
    } else {
      NoneLost(tr, acts, base, fileEnd, n, i - 1);
      RunKeeps(tr, acts, base, fileEnd, n, i - 1);
      StepPlaces(tr[i - 1], acts[i - 1]);
    }
  }

  // And nothing else is claimed: what is in a place lies in a batch, and batches are ranges of their own.
  ghost predicate OnlyBatches(s: State) {
    && (forall b :: b in s.batches ==> BatchRange(s, b) && Multiple(b))
    && (forall x {:trigger Placed(s, x)} :: Placed(s, x) ==> exists b :: b in s.batches && InBatch(s, x, b))
  }

  predicate BatchRange(s: State, b: nat) {
    exists k :: 0 <= k < |s.ranges| && s.ranges[k].lo == b && s.ranges[k].hi == b + BATCH * SBSIZE
  }

  // What comes into a place was in one or belongs to the batch just granted.
  lemma ComesFromBatch(s: State, a: Act, x: nat)
    requires Inv(s) && Allowed(s, a) && Placed(Do(s, a), x)
    ensures var pc := s.th[a.tid];
      Placed(s, x) || (pc.SbCas? && s.curr == pc.seen && InBatch(Do(s, a), x, pc.res))
  {
    var t, pc, s' := a.tid, s.th[a.tid], Do(s, a);
    assert PcInv(s, pc);
    hide AlignUp, IsPow2, RangesInv, Distinct, Claimed;
    if pc.SbCas? && s.curr == pc.seen { BatchFacts(s, pc.res); }
    hide IndexOf;
    if x in s'.queue {
      if pc.SbPop? && s.queue != [] { assert x in s.queue; }
      else if x !in s.queue { assert Pending(s.th[t], x); }
    } else if x in s'.owned {
      if x !in s.owned { assert x in s.queue || Pending(s.th[t], x); }
    } else {
      var u :| 0 <= u < |s'.th| && Pending(s'.th[u], x);
      if u == t && pc.SbCas? {
        AddrOrder(s, x, s'.th[t].first);
      }
    }
  }

  lemma StepOnlyBatches(s: State, a: Act)
    requires Inv(s) && OnlyBatches(s) && Allowed(s, a)
    ensures OnlyBatches(Do(s, a))
  {
    var s', pc := Do(s, a), s.th[a.tid];
    RangesGrow(s, a);
    hide Do, Inv, Placed, Allowed;
    forall x {:trigger Placed(s', x)} | Placed(s', x) ensures exists b :: b in s'.batches && InBatch(s', x, b) {
      ComesFromBatch(s, a, x);
      if Placed(s, x) {
        var b :| b in s.batches && InBatch(s, x, b);
        assert b in s'.batches && InBatch(s', x, b);
      } else {
        assert pc.res in s'.batches;
      }
    }
  }

  lemma RangesGrow(s: State, a: Act)
    requires Inv(s) && Allowed(s, a)
    ensures var s', pc := Do(s, a), s.th[a.tid];
      && s'.base == s.base && (forall b :: b in s.batches ==> b in s'.batches)
      && (forall b :: b in s.batches && BatchRange(s, b) ==> BatchRange(s', b))
      && (pc.SbCas? && s.curr == pc.seen ==> pc.res in s'.batches)
      && (forall b :: b in s'.batches && b !in s.batches ==> BatchRange(s', b) && Multiple(b))
  {
    var s', pc := Do(s, a), s.th[a.tid];
    assert PcInv(s, pc);
    hide AlignUp, IsPow2, RangesInv, Distinct, Claimed, IndexOf;
    assert forall k :: 0 <= k < |s.ranges| ==> s'.ranges[k] == s.ranges[k];
    if pc.SbCas? && s.curr == pc.seen { assert s'.ranges[|s.ranges|] == Range(pc.res, pc.res + BATCH * SBSIZE, PAGE); }
  }

  lemma InitOnlyBatches(base: nat, fileEnd: nat, n: nat)
    requires Multiple(base)
    ensures OnlyBatches(Init(base, fileEnd, n))
  {
    var s := Init(base, fileEnd, n);
    assert s.ranges[0].lo == base;
    forall x {:trigger Placed(s, x)} | Placed(s, x) ensures exists b :: b in s.batches && InBatch(s, x, b) {
      assert base in s.batches && InBatch(s, x, base);
    }
  }

  lemma {:induction false} OnlyBatchesInRun(tr: seq<State>, acts: seq<Act>, base: nat, fileEnd: nat, n: nat, i: nat)
    requires Run(tr, acts, base, fileEnd, n) && AllWholeSbs(acts) && i < |tr|
    ensures OnlyBatches(tr[i])
  {
    hide Inv, Do, OnlyBatches, Allowed, Init;
    if i == 0 {
      InitOnlyBatches(base, fileEnd, n);
    } else {
      OnlyBatchesInRun(tr, acts, base, fileEnd, n, i - 1);
      RunKeeps(tr, acts, base, fileEnd, n, i - 1);
      StepOnlyBatches(tr[i - 1], acts[i - 1]);
    }
  }

  // A superblock that is owned, queued or about to be lies in one range of the region, one that was granted
  // as a batch, and apart from all others.
  lemma SuperblocksLieApart(tr: seq<State>, acts: seq<Act>, base: nat, fileEnd: nat, n: nat, i: nat, x: nat) returns (k: nat)
    requires Run(tr, acts, base, fileEnd, n) && AllWholeSbs(acts) && i < |tr| && Placed(tr[i], x)
    ensures var s := tr[i];
      && k < |s.ranges| && s.ranges[k].lo in s.batches && s.ranges[k].lo <= SbAddr(s, x) && SbAddr(s, x) + SBSIZE <= s.ranges[k].hi
      && forall l :: 0 <= l < |s.ranges| && l != k ==> SbAddr(s, x) + SBSIZE <= s.ranges[l].lo || s.ranges[l].hi <= SbAddr(s, x)
  {
    hide Do, Allowed, Init, Inv, Placed, OnlyBatches;
    OnlyBatchesInRun(tr, acts, base, fileEnd, n, i);
    RunKeeps(tr, acts, base, fileEnd, n, i);
    k := LiesApart(tr[i], x);
  }

  lemma LiesApart(s: State, x: nat) returns (k: nat)
    requires Inv(s) && OnlyBatches(s) && Placed(s, x)
    ensures k < |s.ranges| && s.ranges[k].lo in s.batches && s.ranges[k].lo <= SbAddr(s, x) && SbAddr(s, x) + SBSIZE <= s.ranges[k].hi
    ensures forall l :: 0 <= l < |s.ranges| && l != k ==> SbAddr(s, x) + SBSIZE <= s.ranges[l].lo || s.ranges[l].hi <= SbAddr(s, x)
  {
    hide Distinct, Claimed, Placed, PcInv;
    var b :| b in s.batches && InBatch(s, x, b);
    k :| 0 <= k < |s.ranges| && s.ranges[k].lo == b && s.ranges[k].hi == b + BATCH * SBSIZE;
    InsideBatch(s, x, b);
    hide SbAddr, InBatch, OnlyBatches;
    forall l | 0 <= l < |s.ranges| && l != k ensures SbAddr(s, x) + SBSIZE <= s.ranges[l].lo || s.ranges[l].hi <= SbAddr(s, x) {
      assert s.ranges[k].hi <= s.ranges[l].lo || s.ranges[l].hi <= s.ranges[k].lo;
    }
  }

  lemma InsideBatch(s: State, x: nat, b: nat)
    requires Multiple(s.base) && Multiple(b) && InBatch(s, x, b)
    ensures b <= SbAddr(s, x) && SbAddr(s, x) + SBSIZE <= b + BATCH * SBSIZE
  {
  }

  // The allocator gives up only when no page-aligned batch is left in the file.
  lemma AbortsWhenFull(s: State, a: Act)
    requires Allowed(s, a) && Do(s, a).aborted
    ensures s.fileEnd < s.curr + PAGE + BATCH * SBSIZE
  {
  }

  // --- calls -------------------------------------------------------------------------------------------

  // What a step hands to its caller: a range, or the superblock of an index.
  datatype Event = Tau | Ranged(range: Range) | Handed(x: nat)

  function EventOf(s: State, a: Act): Event
    requires Allowed(s, a)
  {
    var pc := s.th[a.tid];
    if pc.RegionCas? && s.curr == pc.seen then Ranged(pc.range)
    else if pc.SbPop? && s.queue != [] then Handed(s.queue[0])
    else if pc.SbPush? && pc.i >= pc.hi then Handed(pc.first)
    else Tau
  }

  function Effect(e: Event): seq<Event> {
    if e.Tau? then [] else [e]
  }

  // The events are what the records of the region say.
  lemma EventsAreRecorded(s: State, a: Act)
    requires Allowed(s, a)
    ensures var e, s', pc := EventOf(s, a), Do(s, a), s.th[a.tid];
      && s'.owned == s.owned + (if e.Handed? then [e.x] else [])
      && (e.Ranged? ==> s'.ranges == s.ranges + [e.range])
      && (!e.Ranged? && !(pc.SbCas? && s.curr == pc.seen) ==> s'.ranges == s.ranges)
  {
  }

  // Thread t starts a call with step i and is in it until state j.
  ghost predicate InCall(tr: seq<State>, acts: seq<Act>, t: nat, i: nat, j: nat) {
    && i < j <= |acts| < |tr| && acts[i].tid == t && t < |tr[i].th| && tr[i].th[t].Idle?
    && forall m :: i < m < j ==> t < |tr[m].th| && !tr[m].th[t].Idle?
  }

  // What steps i up to j handed to thread t.
  function EffectsOf(tr: seq<State>, acts: seq<Act>, t: nat, i: nat, j: nat): seq<Event>
    requires i <= j <= |acts| < |tr| && forall m :: i <= m < j ==> Allowed(tr[m], acts[m])
    decreases j - i
  {
    if i == j then [] else
    EffectsOf(tr, acts, t, i, j - 1) + if acts[j - 1].tid == t then Effect(EventOf(tr[j - 1], acts[j - 1])) else []
  }

  // A range as requested or none; one superblock.
  predicate Served(c: Choice, es: seq<Event>) {
    match c
    case Region(alignment, size) =>
      || es == []
      || (|es| == 1 && es[0].Ranged? && var r := es[0].range;
            r.hi == r.lo + size && r.alignment == alignment > 0 && r.lo % alignment == 0)
    case _ => |es| == 1 && es[0].Handed?
  }

  predicate CallAt(pc: Pc, c: Choice) {
    match c
    case Region(alignment, size) =>
      || pc == RegionLoad(alignment, size)
      || (pc.RegionCas? && var r := pc.range;
            r.hi == r.lo + size && r.alignment == alignment > 0 && r.lo % alignment == 0)
    case Superblock => pc.SbPop? || pc.SbLoad? || pc.SbCas? || pc.SbPush?
    case Continue => false
  }

  // Why a request for a range gets none: it is rejected or does not fit.
  predicate Refused(s: State, c: Choice) {
    c.Region? && (BadRequest(c.alignment, c.size) || (c.alignment > 0 && AlignUp(s.curr, c.alignment) + c.size > s.fileEnd))
  }

  lemma CallStarts(s: State, a: Act)
    requires Allowed(s, a) && s.th[a.tid].Idle?
    ensures Effect(EventOf(s, a)) == []
    ensures var pc' := Do(s, a).th[a.tid];
      if pc'.Idle? then Refused(s, a.choice) && Served(a.choice, []) else CallAt(pc', a.choice) && !pc'.RegionCas?
  {
  }

  lemma CallAdvances(s: State, a: Act, c: Choice)
    requires Allowed(s, a) && CallAt(s.th[a.tid], c) && (s.th[a.tid].RegionLoad? ==> s.th[a.tid].alignment > 0)
    ensures var pc, pc', es := s.th[a.tid], Do(s, a).th[a.tid], Effect(EventOf(s, a));
      && (if pc'.Idle? then Served(c, es) && (es == [] ==> Refused(s, c) || (c.Region? && pc.RegionCas? && pc.seen != s.curr))
          else CallAt(pc', c) && es == [])
      && (pc'.RegionCas? ==> pc'.seen == s.curr)
  {
    hide IsPow2, IndexOf, AlignUp;
    if s.th[a.tid].RegionLoad? { Aligned(s.curr, s.th[a.tid].alignment); }
  }

  lemma OthersStay(s: State, a: Act, u: nat)
    requires Allowed(s, a) && u < |s.th|
    ensures |Do(s, a).th| == |s.th| && (u != a.tid ==> Do(s, a).th[u] == s.th[u])
  {
  }

  // Why a call was handed nothing: at a moment m its request could not be met, or the end that it saw then
  // was not the end any more when it tried to move it.
  predicate Fails(tr: seq<State>, c: Choice, m: nat, last: nat)
    requires m < |tr| && last < |tr|
  {
    Refused(tr[m], c) || (c.Region? && tr[m].curr != tr[last].curr)
  }

  lemma {:induction false} CallHistory(tr: seq<State>, acts: seq<Act>, base: nat, fileEnd: nat, n: nat, t: nat, i: nat, j: nat)
    returns (m: nat)
    requires Run(tr, acts, base, fileEnd, n) && InCall(tr, acts, t, i, j)
    ensures t < |tr[j].th| && i <= m < j
    ensures var c, es, pc := acts[i].choice, EffectsOf(tr, acts, t, i, j), tr[j].th[t];
      && (if pc.Idle? then acts[j - 1].tid == t && Served(c, es) && (es == [] ==> Fails(tr, c, m, j - 1))
          else CallAt(pc, c) && es == [] && (pc.RegionCas? ==> pc.seen == tr[m].curr))
  {
    hide Do, Allowed, EventOf, CallAt, Served, Init, Effect, Refused;
    var c, s, a := acts[i].choice, tr[j - 1], acts[j - 1];
    OthersStay(s, a, t);
    if i + 1 == j {
      m := i;
      assert EffectsOf(tr, acts, t, i, i) == [];
      CallStarts(s, a);
      assert EffectsOf(tr, acts, t, i, j) == [];
    } else {
      m := CallHistory(tr, acts, base, fileEnd, n, t, i, j - 1);
      if a.tid == t {
        RunRanges(tr, acts, base, fileEnd, n, j - 1);
        assert RangePc(s, s.th[t]);
        CallAdvances(s, a, c);
        assert EffectsOf(tr, acts, t, i, j) == [] + Effect(EventOf(s, a)) == Effect(EventOf(s, a));
        if tr[j].th[t].RegionCas? || Refused(s, c) { m := j - 1; }
      } else {
        assert EffectsOf(tr, acts, t, i, j) == [];
      }
    }
  }

  // Every call that is over did what it was asked for, once: a superblock is handed out, or a range of the
  // size and alignment requested.  A request gets no range only if it is bad, does not fit, or finds
  // the end of the region moved.
  lemma CallsAreServed(tr: seq<State>, acts: seq<Act>, base: nat, fileEnd: nat, n: nat, t: nat, i: nat, j: nat) returns (m: nat)
    requires Run(tr, acts, base, fileEnd, n) && InCall(tr, acts, t, i, j) && t < |tr[j].th| && tr[j].th[t].Idle?
    ensures var c, es := acts[i].choice, EffectsOf(tr, acts, t, i, j);
      Served(c, es) && (es == [] ==> i <= m < j && Fails(tr, c, m, j - 1))
  {
    hide Do, Allowed, EventOf, Served, Init, Effect, Fails;
    m := CallHistory(tr, acts, base, fileEnd, n, t, i, j);
  }
}
