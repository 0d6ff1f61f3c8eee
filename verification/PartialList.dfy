/**
 The list of partial superblocks of a size class: a stack of descriptors whose head is one word,
 a counter above a 30-bit descriptor offset.  Only push bumps the counter.  One step per load,
 store or compare-and-swap; counters are unbounded.

 Auxiliary state: `list`, the descriptors on the stack from the top.
 */
module PartialList {

  import opened Pptr

  type Addr = Word

  const OFFSETS := 0x4000_0000

  // --- the packed head --------------------------------------------------------------------------

  datatype PtrCnt = PtrCnt(ptr: Addr, cnt: nat)

  // The region of descriptors starts at `base` and its offsets fit in 30 bits.
  predicate Region(base: Addr) {
    0 < base && base + 2 * OFFSETS <= WORDS
  }

  predicate InRegion(base: Addr, p: Addr) {
    base <= p < base + OFFSETS
  }

  // For null and pointers into the region, whose offsets do not overlap the counter.
  function Pack(base: Addr, p: PtrCnt): int {
    p.cnt * OFFSETS + (if p.ptr == NULL then 0 else p.ptr - base)
  }

  function Unpack(base: Addr, w: nat): (p: PtrCnt)
    requires Region(base)
    ensures p.ptr == NULL || (InRegion(base, p.ptr) && p.ptr != base)
  {
    var off := w % OFFSETS;
    PtrCnt(if off == 0 then NULL else base + off, w / OFFSETS)
  }

  predicate Packable(base: Addr, p: Addr) {
    p == NULL || InRegion(base, p)
  }

  // The head is read back as it was written, unless it names the first descriptor of the region,
  // whose offset is the null offset.
  lemma UnpackPackIff(base: Addr, p: PtrCnt)
    requires Region(base) && Packable(base, p.ptr)
    ensures 0 <= Pack(base, p) && (Unpack(base, Pack(base, p)) == p <==> p.ptr != base)
  {
    var off := if p.ptr == NULL then 0 else p.ptr - base;
    assert (p.cnt * OFFSETS + off) / OFFSETS == p.cnt && (p.cnt * OFFSETS + off) % OFFSETS == off;
  }

  // Comparing words is comparing (pointer, counter) pairs.
  lemma WordTestIsPairTest(base: Addr, w: nat, p: PtrCnt)
    requires Region(base) && Packable(base, p.ptr) && p.ptr != base
    ensures w == Pack(base, p) <==> Unpack(base, w) == p
  {
    UnpackPackIff(base, p);
  }

  // --- threads -----------------------------------------------------------------------------------

  datatype Pc =
    | Idle
    | PushLoad(desc: Addr)
    | PushStore(desc: Addr, head0: PtrCnt)
    | PushCas(desc: Addr, head0: PtrCnt)
    | PopLoad
    | PopRead(head0: PtrCnt)
    | PopCas(head0: PtrCnt, succ: Addr)

  // next maps each descriptor to the stored word of its next_partial field.
  datatype State = State(base: Addr, word: nat, next: map<Addr, Word>, th: seq<Pc>, list: seq<Addr>, fault: bool)

  datatype Choice = Push(desc: Addr) | Pop | Continue(spurious: bool)
  datatype Act = Act(tid: nat, choice: Choice)

  // next_partial follows the 8-byte next_free in a descriptor.
  function Field(d: Addr): Word {
    (d + 8) % WORDS
  }

  function Init(base: Addr, descs: set<Addr>, n: nat): State {
    State(base, 0, map d | d in descs :: POS, seq(n, _ => Idle), [], false)
  }

  predicate HasDesc(pc: Pc) {
    pc.PushLoad? || pc.PushStore? || pc.PushCas?
  }

  predicate HasHead(pc: Pc) {
    pc.PushStore? || pc.PushCas? || pc.PopRead? || pc.PopCas?
  }

  predicate Shape(s: State) {
    Region(s.base) && !s.fault
  }

  // Who pushes a descriptor owns it: it is not on the list and no one else pushes it.  The first
  // descriptor of the region is never pushed.
  predicate Owned(s: State, d: Addr) {
    && d in s.next && d != s.base && d !in s.list
    && forall t :: 0 <= t < |s.th| ==> !(HasDesc(s.th[t]) && s.th[t].desc == d)
  }

  predicate Allowed(s: State, a: Act) {
    a.tid < |s.th| && (s.th[a.tid].Idle? <==> !a.choice.Continue?) && (a.choice.Push? ==> Owned(s, a.choice.desc))
  }

  function Goto(s: State, t: nat, pc: Pc): State
    requires t < |s.th|
  {
    s.(th := s.th[t := pc])
  }

  predicate CasSucceeds(s: State, a: Act, head0: PtrCnt) {
    s.word == Pack(s.base, head0) && a.choice.Continue? && !a.choice.spurious
  }

  // The null test at the head of pop's loop.
  function PopFrom(s: State, t: nat, head0: PtrCnt): State
    requires t < |s.th|
  {
    Goto(s, t, if head0.ptr == NULL then Idle else PopRead(head0))
  }

  function Do(s: State, a: Act): State
    requires Shape(s) && Allowed(s, a)
  {
    var t, pc, head := a.tid, s.th[a.tid], Unpack(s.base, s.word);
    match pc
    case Idle => Goto(s, t, if a.choice.Push? then PushLoad(a.choice.desc) else PopLoad)
    case PushLoad(d) => Goto(s, t, PushStore(d, head))
    case PushStore(d, head0) =>
      Goto(s, t, PushCas(d, head0)).(next := s.next[d := ToOff(head0.ptr, Field(d))])
    case PushCas(d, head0) =>
      if CasSucceeds(s, a, head0) then
        Goto(s, t, Idle).(word := Nat(Pack(s.base, PtrCnt(d, head0.cnt + 1))), list := [d] + s.list)
      else Goto(s, t, PushStore(d, head))
    case PopLoad => PopFrom(s, t, head)
    case PopRead(head0) =>
      if head0.ptr !in s.next then s.(fault := true)
      else Goto(s, t, PopCas(head0, FromOff(s.next[head0.ptr], Field(head0.ptr))))
    case PopCas(head0, succ) =>
      if CasSucceeds(s, a, head0) then
        Goto(s, t, Idle).(word := Nat(Pack(s.base, PtrCnt(succ, head0.cnt))), list := if s.list == [] then [] else s.list[1..])
      else PopFrom(s, t, head)
  }

  function Nat(i: int): nat {
    if i < 0 then 0 else i
  }

  // --- invariant ------------------------------------------------------------------------------------

  function Head(s: State): PtrCnt
    requires Region(s.base)
  {
    Unpack(s.base, s.word)
  }

  // The i-th entry of the stack, null past its end.
  function Entry(s: State, i: nat): Addr {
    if i < |s.list| then s.list[i] else NULL
  }

  function NextOf(s: State, d: Addr): Addr
    requires d in s.next
  {
    FromOff(s.next[d], Field(d))
  }

  predicate DescOrNull(s: State, d: Addr) {
    d == NULL || (d in s.next && d != s.base)
  }

  ghost predicate Memory(s: State) {
    && Shape(s)
    && (forall d :: d in s.next ==> InRegion(s.base, d))
    && (forall d :: d in s.next ==> DescOrNull(s, NextOf(s, d)))
  }

  // The words in memory spell out the list.
  ghost predicate ListInv(s: State)
    requires Memory(s)
  {
    && Head(s).ptr == Entry(s, 0)
    && (forall i {:trigger s.list[i]} :: 0 <= i < |s.list| ==> s.list[i] in s.next && s.list[i] != s.base)
    && (forall i, j :: 0 <= i < j < |s.list| ==> s.list[i] != s.list[j])
    && (forall i {:trigger NextOf(s, s.list[i])} :: 0 <= i < |s.list| ==> NextOf(s, s.list[i]) == Entry(s, i + 1))
  }

  predicate PcInv(s: State, pc: Pc)
    requires Memory(s)
  {
    && (HasDesc(pc) ==> pc.desc in s.next && pc.desc != s.base && pc.desc !in s.list)
    && (HasHead(pc) ==> pc.head0.cnt <= Head(s).cnt && DescOrNull(s, pc.head0.ptr))
    && (pc.PushCas? ==> NextOf(s, pc.desc) == pc.head0.ptr)
    && (pc.PopRead? || pc.PopCas? ==> pc.head0.ptr != NULL)
    && ((pc.PopRead? || pc.PopCas?) && pc.head0.cnt == Head(s).cnt && pc.head0.ptr in s.list ==> pc.head0.ptr == s.list[0])
    && (pc.PopCas? ==> DescOrNull(s, pc.succ))
    && (pc.PopCas? && pc.head0.cnt == Head(s).cnt && pc.head0.ptr in s.list ==> pc.succ == NextOf(s, pc.head0.ptr))
  }

  predicate Distinct(s: State) {
    forall t, u :: 0 <= t < u < |s.th| && HasDesc(s.th[t]) && HasDesc(s.th[u]) ==> s.th[t].desc != s.th[u].desc
  }

  ghost predicate Inv(s: State) {
    && Memory(s) && ListInv(s) && Distinct(s)
    && (forall t {:trigger s.th[t]} :: 0 <= t < |s.th| ==> PcInv(s, s.th[t]))
  }

  // --- steps ------------------------------------------------------------------------------------------

  // What another thread may rely on: the counter grows, and while it stays put the list only
  // loses entries at the top and the entries keep their successors.
  ghost predicate Evolves(s: State, s': State, pc: Pc) {
    && Memory(s) && Memory(s') && s'.base == s.base && s'.next.Keys == s.next.Keys
    && Head(s).cnt <= Head(s').cnt
    && (Head(s).cnt == Head(s').cnt ==> s'.list == s.list || (s.list != [] && s'.list == s.list[1..]))
    && (Head(s).cnt == Head(s').cnt ==> forall d :: d in s'.list ==> d in s.next && NextOf(s', d) == NextOf(s, d))
    && (HasDesc(pc) && pc.desc in s.next ==> NextOf(s', pc.desc) == NextOf(s, pc.desc) && (pc.desc !in s.list ==> pc.desc !in s'.list))
  }

  lemma PcStable(s: State, s': State, pc: Pc)
    requires Evolves(s, s', pc) && ListInv(s) && PcInv(s, pc)
    ensures PcInv(s', pc)
  {
  }

  lemma Conclude(s: State, s': State, t: nat)
    requires Inv(s) && t < |s.th| && |s'.th| == |s.th| && Memory(s') && ListInv(s')
    requires forall u :: 0 <= u < |s.th| && u != t ==> s'.th[u] == s.th[u] && Evolves(s, s', s.th[u])
    requires PcInv(s', s'.th[t])
    requires HasDesc(s'.th[t]) ==> forall u :: 0 <= u < |s.th| && u != t && HasDesc(s.th[u]) ==> s.th[u].desc != s'.th[t].desc
    ensures Inv(s')
  {
    hide Evolves, PcInv, Memory, ListInv;
    forall u | 0 <= u < |s'.th| ensures PcInv(s', s'.th[u]) {
      if u != t { PcStable(s, s', s.th[u]); }
    }
  }

  lemma Moves(s: State, t: nat, pc: Pc)
    requires Inv(s) && t < |s.th| && PcInv(s, pc)
    requires HasDesc(pc) ==> (HasDesc(s.th[t]) && s.th[t].desc == pc.desc) || Owned(s, pc.desc)
    ensures Inv(Goto(s, t, pc))
  {
    var s' := Goto(s, t, pc);
    assert forall d :: d in s.next ==> NextOf(s', d) == NextOf(s, d);
    assert Head(s') == Head(s);
    Conclude(s, s', t);
  }

  lemma HeadIsValid(s: State)
    requires Inv(s)
    ensures DescOrNull(s, Head(s).ptr)
    ensures s.list == [] <==> Head(s).ptr == NULL
  {
  }

  lemma Loads(s: State, a: Act)
    requires Inv(s) && Allowed(s, a)
    requires var pc := s.th[a.tid]; pc.Idle? || pc.PushLoad? || pc.PopLoad? || pc.PopRead?
    ensures Inv(Do(s, a))
  {
    var t, pc, head := a.tid, s.th[a.tid], Head(s);
    assert PcInv(s, pc);
    HeadIsValid(s);
    match pc
    case Idle => Moves(s, t, if a.choice.Push? then PushLoad(a.choice.desc) else PopLoad);
    case PushLoad(d) => Moves(s, t, PushStore(d, head));
    case PopLoad => PopsFrom(s, t);
    case PopRead(head0) => Moves(s, t, PopCas(head0, NextOf(s, head0.ptr)));
  }

  lemma PopsFrom(s: State, t: nat)
    requires Inv(s) && t < |s.th|
    ensures Inv(PopFrom(s, t, Head(s)))
  {
    HeadIsValid(s);
    Moves(s, t, if Head(s).ptr == NULL then Idle else PopRead(Head(s)));
  }

  // A field of a descriptor reads back what was stored there.
  lemma StoredField(s: State, d: Addr, v: Addr)
    requires Memory(s) && d in s.next && DescOrNull(s, v)
    ensures FromOff(ToOff(v, Field(d)), Field(d)) == v
  {
    assert InRegion(s.base, d) && Packable(s.base, v) && Region(s.base);
    hide *;
    FieldInReach(s.base, d, v);
    RoundTrip(v, Field(d));
  }

  lemma FieldInReach(base: Addr, d: Addr, v: Addr)
    requires Region(base) && InRegion(base, d) && Packable(base, v)
    ensures InReach(v, Field(d))
  {
  }

  // next_partial of an unlisted descriptor is written.
  lemma StoresNext(s: State, a: Act)
    requires Inv(s) && Allowed(s, a) && s.th[a.tid].PushStore?
    ensures Inv(Do(s, a))
  {
    var t, pc, s' := a.tid, s.th[a.tid], Do(s, a);
    assert PcInv(s, pc);
    StoredField(s, pc.desc, pc.head0.ptr);
    hide FromOff, ToOff, Unpack;
    assert forall d :: d in s.next && d != pc.desc ==> NextOf(s', d) == NextOf(s, d);
    StoredList(s, pc.desc, s');
    assert Head(s') == Head(s);
    assert s'.list == s.list && s'.base == s.base && s'.next.Keys == s.next.Keys;
    assert forall u :: 0 <= u < |s.th| && u != t && HasDesc(s.th[u]) ==> s.th[u].desc != pc.desc;
    hide ListInv, NextOf;
    Conclude(s, s', t);
  }

  lemma StoredList(s: State, d: Addr, s': State)
    requires Memory(s) && ListInv(s) && d in s.next && d !in s.list
    requires Shape(s') && s'.base == s.base && s'.word == s.word && s'.next.Keys == s.next.Keys && s'.list == s.list
    requires forall e :: e in s.next && e != d ==> NextOf(s', e) == NextOf(s, e)
    requires DescOrNull(s, NextOf(s', d))
    ensures Memory(s') && ListInv(s')
  {
    hide NextOf, Unpack;
    assert forall i :: 0 <= i < |s.list| ==> s.list[i] in s.list;
  }

  // Push's CAS: succeeds only if the head is still the pair that was loaded.
  lemma Pushes(s: State, a: Act)
    requires Inv(s) && Allowed(s, a) && s.th[a.tid].PushCas?
    ensures Inv(Do(s, a))
  {
    var t, pc, s' := a.tid, s.th[a.tid], Do(s, a);
    assert PcInv(s, pc);
    HeadIsValid(s);
    if CasSucceeds(s, a, pc.head0) {
      WordTestIsPairTest(s.base, s.word, pc.head0);
      UnpackPackIff(s.base, PtrCnt(pc.desc, pc.head0.cnt + 1));
      hide FromOff, ToOff, Unpack, Pack;
      assert Head(s') == PtrCnt(pc.desc, Head(s).cnt + 1);
      assert forall d :: d in s.next ==> NextOf(s', d) == NextOf(s, d);
      assert forall u :: 0 <= u < |s.th| && u != t && HasDesc(s.th[u]) ==> s.th[u].desc != pc.desc;
      PushedList(s, pc.desc, s');
      Conclude(s, s', t);
    } else {
      Moves(s, t, PushStore(pc.desc, Head(s)));
    }
  }

  lemma PushedList(s: State, d: Addr, s': State)
    requires Memory(s) && ListInv(s) && d in s.next && d != s.base && d !in s.list && NextOf(s, d) == Head(s).ptr
    requires Shape(s') && s'.base == s.base && s'.next == s.next && s'.list == [d] + s.list && Head(s').ptr == d
    ensures Memory(s') && ListInv(s')
  {
    hide FromOff, Unpack;
    assert forall e :: e in s.next ==> NextOf(s', e) == NextOf(s, e);
    hide NextOf;
    PrependedEntries(s, d, s');
    forall i {:trigger NextOf(s', s'.list[i])} | 0 <= i < |s'.list| ensures NextOf(s', s'.list[i]) == Entry(s', i + 1) {
      if i > 0 { assert NextOf(s, s.list[i - 1]) == Entry(s, i); }
    }
  }

  lemma PrependedEntries(s: State, d: Addr, s': State)
    requires Memory(s) && ListInv(s) && d !in s.list && s'.list == [d] + s.list
    ensures forall i {:trigger s'.list[i]} :: 0 < i <= |s.list| ==> s'.list[i] == s.list[i - 1]
    ensures forall i :: 0 <= i <= |s.list| ==> Entry(s', i + 1) == Entry(s, i)
    ensures forall i, j :: 0 <= i < j < |s'.list| ==> s'.list[i] != s'.list[j]
  {
  }

  // Pop's CAS: if the pair still matches, the successor read earlier is the true one.
  lemma Pops(s: State, a: Act)
    requires Inv(s) && Allowed(s, a) && s.th[a.tid].PopCas?
    ensures Inv(Do(s, a))
  {
    var t, pc, s' := a.tid, s.th[a.tid], Do(s, a);
    assert PcInv(s, pc);
    if CasSucceeds(s, a, pc.head0) {
      HeadIsValid(s);
      WordTestIsPairTest(s.base, s.word, pc.head0);
      UnpackPackIff(s.base, PtrCnt(pc.succ, pc.head0.cnt));
      hide FromOff, ToOff, Unpack, Pack;
      assert Head(s') == PtrCnt(pc.succ, Head(s).cnt);
      assert forall d :: d in s.next ==> NextOf(s', d) == NextOf(s, d);
      PoppedList(s, s');
      Conclude(s, s', t);
    } else {
      PopsFrom(s, t);
    }
  }

  lemma PoppedList(s: State, s': State)
    requires Memory(s) && ListInv(s) && s.list != []
    requires Shape(s') && s'.base == s.base && s'.next == s.next && s'.list == s.list[1..]
    requires Head(s').ptr == NextOf(s, s.list[0])
    ensures Memory(s') && ListInv(s')
  {
    hide FromOff, Unpack;
    assert forall e :: e in s.next ==> NextOf(s', e) == NextOf(s, e);
    assert forall i :: 0 <= i < |s'.list| ==> s'.list[i] == s.list[i + 1];
  }

  lemma StepKeeps(s: State, a: Act)
    requires Inv(s) && Allowed(s, a)
    ensures Inv(Do(s, a))
  {
    var pc := s.th[a.tid];
    hide Inv, Do;
    if pc.PushStore? { StoresNext(s, a); }
    else if pc.PushCas? { Pushes(s, a); }
    else if pc.PopCas? { Pops(s, a); }
    else { Loads(s, a); }
  }

  // --- refinement of a stack ------------------------------------------------------------------------

  datatype Event = Tau | Pushed(desc: Addr) | Popped(desc: Addr) | SawEmpty

  // Read off the concrete state: the successful CAS, or the load of a null head.
  function EventOf(s: State, a: Act): Event
    requires Shape(s) && Allowed(s, a)
  {
    var pc := s.th[a.tid];
    if pc.PushCas? && CasSucceeds(s, a, pc.head0) then Pushed(pc.desc)
    else if pc.PopCas? && CasSucceeds(s, a, pc.head0) then Popped(pc.head0.ptr)
    else if (pc.PopLoad? || pc.PopCas?) && Do(s, a).th[a.tid].Idle? then SawEmpty
    else Tau
  }

  predicate StackStep(q: seq<Addr>, e: Event, q': seq<Addr>) {
    match e
    case Tau => q' == q
    case Pushed(d) => d !in q && q' == [d] + q
    case Popped(d) => q != [] && d == q[0] && q' == q[1..]
    case SawEmpty => q == [] && q' == q
  }

  lemma StepIsStack(s: State, a: Act)
    requires Inv(s) && Allowed(s, a)
    ensures StackStep(s.list, EventOf(s, a), Do(s, a).list)
  {
    var pc := s.th[a.tid];
    assert PcInv(s, pc);
    HeadIsValid(s);
    hide FromOff, ToOff, Unpack, Pack, Distinct;
    if HasHead(pc) { WordTestIsPairTest(s.base, s.word, pc.head0); }
  }

  lemma InitInv(base: Addr, descs: set<Addr>, n: nat)
    requires Region(base) && forall d :: d in descs ==> InRegion(base, d)
    ensures Inv(Init(base, descs, n))
  {
  }

  ghost predicate Run(tr: seq<State>, acts: seq<Act>, base: Addr, descs: set<Addr>, n: nat) {
    && |tr| == |acts| + 1 && tr[0] == Init(base, descs, n)
    && Region(base) && (forall d :: d in descs ==> InRegion(base, d))
    && (forall i :: 0 <= i < |acts| ==> Shape(tr[i]) && Allowed(tr[i], acts[i]) && tr[i + 1] == Do(tr[i], acts[i]))
  }

  lemma {:induction false} RunKeeps(tr: seq<State>, acts: seq<Act>, base: Addr, descs: set<Addr>, n: nat, i: nat)
    requires Run(tr, acts, base, descs, n) && i < |tr|
    ensures Inv(tr[i])
  {
    if i == 0 {
      InitInv(base, descs, n);
    } else {
      RunKeeps(tr, acts, base, descs, n, i - 1);
      hide Inv, Do;
      StepKeeps(tr[i - 1], acts[i - 1]);
    }
  }

  function Given(e: Event): multiset<Addr> {
    if e.Pushed? then multiset{e.desc} else multiset{}
  }

  function Taken(e: Event): multiset<Addr> {
    if e.Popped? then multiset{e.desc} else multiset{}
  }

  function PushedBy(tr: seq<State>, acts: seq<Act>, i: nat): multiset<Addr>
    requires i <= |acts| < |tr| && forall j :: 0 <= j < i ==> Shape(tr[j]) && Allowed(tr[j], acts[j])
  {
    if i == 0 then multiset{} else PushedBy(tr, acts, i - 1) + Given(EventOf(tr[i - 1], acts[i - 1]))
  }

  function PoppedBy(tr: seq<State>, acts: seq<Act>, i: nat): multiset<Addr>
    requires i <= |acts| < |tr| && forall j :: 0 <= j < i ==> Shape(tr[j]) && Allowed(tr[j], acts[j])
  {
    if i == 0 then multiset{} else PoppedBy(tr, acts, i - 1) + Taken(EventOf(tr[i - 1], acts[i - 1]))
  }

  lemma StackAccounts(pushed: multiset<Addr>, popped: multiset<Addr>, q: seq<Addr>, e: Event, q': seq<Addr>)
    requires pushed == popped + multiset(q) && StackStep(q, e, q')
    ensures pushed + Given(e) == (popped + Taken(e)) + multiset(q')
  {
    if e.Popped? { assert q == [e.desc] + q'; }
  }

  // In every run each descriptor was popped as often as it was pushed, but for the one push of
  // those still on the stack.
  lemma {:induction false} RunConserves(tr: seq<State>, acts: seq<Act>, base: Addr, descs: set<Addr>, n: nat, i: nat)
    requires Run(tr, acts, base, descs, n) && i <= |acts|
    ensures PushedBy(tr, acts, i) == PoppedBy(tr, acts, i) + multiset(tr[i].list)
    ensures forall d :: multiset(tr[i].list)[d] <= 1
  {
    hide Inv, Do, EventOf, StackStep, Given, Taken;
    RunKeeps(tr, acts, base, descs, n, i);
    NoRepeats(tr[i]);
    if i > 0 {
      RunConserves(tr, acts, base, descs, n, i - 1);
      RunKeeps(tr, acts, base, descs, n, i - 1);
      StepIsStack(tr[i - 1], acts[i - 1]);
      StackAccounts(PushedBy(tr, acts, i - 1), PoppedBy(tr, acts, i - 1), tr[i - 1].list,
                    EventOf(tr[i - 1], acts[i - 1]), tr[i].list);
    }
  }

  lemma NoRepeats(s: State)
    requires Inv(s)
    ensures forall d :: multiset(s.list)[d] <= 1
  {
    forall d ensures multiset(s.list)[d] <= 1 { CountOfDistinct(s.list, d); }
  }

  lemma {:induction false} CountOfDistinct(q: seq<Addr>, d: Addr)
    requires forall i, j :: 0 <= i < j < |q| ==> q[i] != q[j]
    ensures multiset(q)[d] == if d in q then 1 else 0
  {
    if q != [] {
      CountOfDistinct(q[1..], d);
      assert q == [q[0]] + q[1..];
    }
  }

  // --- calls -------------------------------------------------------------------------------------------

  // Thread t starts a call with step i and is in it until state j.
  ghost predicate InCall(tr: seq<State>, acts: seq<Act>, t: nat, i: nat, j: nat) {
    && i < j <= |acts| < |tr| && acts[i].tid == t && t < |tr[i].th| && tr[i].th[t].Idle?
    && forall m :: i < m < j ==> t < |tr[m].th| && !tr[m].th[t].Idle?
  }

  function Effect(e: Event): seq<Event> {
    if e.Tau? then [] else [e]
  }

  // The stack operations that thread t performed in steps i up to j.
  function EffectsOf(tr: seq<State>, acts: seq<Act>, t: nat, i: nat, j: nat): seq<Event>
    requires i <= j <= |acts| < |tr| && forall m :: i <= m < j ==> Shape(tr[m]) && Allowed(tr[m], acts[m])
    decreases j - i
  {
    if i == j then [] else
    EffectsOf(tr, acts, t, i, j - 1) + if acts[j - 1].tid == t then Effect(EventOf(tr[j - 1], acts[j - 1])) else []
  }

  // What a step of pop returns if it ends the call.
  function Returning(s: State, a: Act): Addr
    requires a.tid < |s.th|
  {
    var pc := s.th[a.tid];
    if pc.PopCas? && CasSucceeds(s, a, pc.head0) then pc.head0.ptr else NULL
  }

  // A push is one push of its argument; a pop takes off the descriptor it returns, or finds the list
  // empty if it returns null.
  predicate Served(c: Choice, es: seq<Event>, ret: Addr) {
    es == [if c.Push? then Pushed(c.desc) else if ret == NULL then SawEmpty else Popped(ret)]
  }

  predicate CallAt(pc: Pc, c: Choice) {
    if c.Push? then HasDesc(pc) && pc.desc == c.desc else !pc.Idle? && !HasDesc(pc)
  }

  lemma CallStarts(s: State, a: Act)
    requires Shape(s) && Allowed(s, a) && s.th[a.tid].Idle?
    ensures CallAt(Do(s, a).th[a.tid], a.choice) && Effect(EventOf(s, a)) == []
  {
  }

  // The step that ends a call is the one that does what was asked for; no other has an effect.
  lemma CallAdvances(s: State, a: Act, c: Choice)
    requires Shape(s) && Allowed(s, a) && CallAt(s.th[a.tid], c) && !Do(s, a).fault
    requires s.th[a.tid].PopCas? ==> s.th[a.tid].head0.ptr != NULL
    ensures var pc', es := Do(s, a).th[a.tid], Effect(EventOf(s, a));
      if pc'.Idle? then Served(c, es, Returning(s, a)) else CallAt(pc', c) && es == []
  {
    hide Unpack, Pack, FromOff, ToOff;
  }

  lemma SoundPoint(s: State, t: nat)
    requires Inv(s) && t < |s.th|
    ensures !s.fault && (s.th[t].PopCas? ==> s.th[t].head0.ptr != NULL)
  {
    assert PcInv(s, s.th[t]);
  }

  lemma OthersStay(s: State, a: Act, u: nat)
    requires Shape(s) && Allowed(s, a) && u < |s.th|
    ensures |Do(s, a).th| == |s.th| && (u != a.tid ==> Do(s, a).th[u] == s.th[u])
  {
  }

  lemma {:induction false} CallHistory(tr: seq<State>, acts: seq<Act>, base: Addr, descs: set<Addr>, n: nat, t: nat, i: nat, j: nat)
    requires Run(tr, acts, base, descs, n) && InCall(tr, acts, t, i, j)
    ensures t < |tr[j].th|
    ensures var c, es := acts[i].choice, EffectsOf(tr, acts, t, i, j);
      if tr[j].th[t].Idle? then acts[j - 1].tid == t && Served(c, es, Returning(tr[j - 1], acts[j - 1]))
      else CallAt(tr[j].th[t], c) && es == []
  {
    hide Inv, Do, Shape, Allowed, EventOf, CallAt, Served, Init, Effect, Returning;
    var c, s, a := acts[i].choice, tr[j - 1], acts[j - 1];
    OthersStay(s, a, t);
    if i + 1 == j {
      assert EffectsOf(tr, acts, t, i, i) == [];
      CallStarts(s, a);
      CallIsBusy(tr[j].th[t], c);
      assert EffectsOf(tr, acts, t, i, j) == [];
    } else {
      CallHistory(tr, acts, base, descs, n, t, i, j - 1);
      if a.tid == t {
        RunKeeps(tr, acts, base, descs, n, j - 1);
        RunKeeps(tr, acts, base, descs, n, j);
        SoundPoint(s, t);
        SoundPoint(tr[j], t);
        CallAdvances(s, a, c);
        assert EffectsOf(tr, acts, t, i, j) == [] + Effect(EventOf(s, a)) == Effect(EventOf(s, a));
      } else {
        assert EffectsOf(tr, acts, t, i, j) == [];
      }
    }
  }

  lemma CallIsBusy(pc: Pc, c: Choice)
    requires CallAt(pc, c)
    ensures !pc.Idle?
  {
  }

  // Every call that is over did what it was asked for, once.
  lemma CallsAreServed(tr: seq<State>, acts: seq<Act>, base: Addr, descs: set<Addr>, n: nat, t: nat, i: nat, j: nat)
    requires Run(tr, acts, base, descs, n) && InCall(tr, acts, t, i, j) && t < |tr[j].th| && tr[j].th[t].Idle?
    ensures acts[j - 1].tid == t < |tr[j - 1].th| && Served(acts[i].choice, EffectsOf(tr, acts, t, i, j), Returning(tr[j - 1], acts[j - 1]))
  {
    hide Do, Shape, Allowed, EventOf, Served, Init;
    CallHistory(tr, acts, base, descs, n, t, i, j);
  }
}
