/**
 The array queue that hands out free superblock indices, as a state machine with one step per
 atomic load and compare-and-swap.  A push publishes its value in `rear`; whoever comes next
 copies it into its ring slot (`finish_enqueue`).

 Auxiliary state: the ticket of `rear` and of `front` (pushes and pops so far), the value pushed
 under each ticket, and the tickets of each thread's snapshots.

 The slot CAS of `finish_enqueue` refreshes its expected value on every failure, so it ends up
 overwriting whatever it finds.  `Harmless` is the exact condition on such a write under which the
 invariant survives (`StepKeepsIff`, `RunKeepsIff`); it holds in particular of every write whose rear
 snapshot is less than `size` enqueues old.  The queue theorems are about runs of harmless steps;
 `StaleWriteRun` is a run that loses an element by a step that is not.
 */
module ArrayQueue {

  import opened Arithmetic
  import opened Common
  import opened Fifo

  datatype Rear = Rear(value: int, index: nat, counter: nat)
  datatype Front = Front(index: nat, counter: nat)
  datatype Node = Node(value: int, counter: nat)

  // Program points with the locals still live; k is the ticket of the rear snapshot r, j that of
  // the front snapshot f.
  datatype Pc =
    | Idle
    | PushLoadRear(v: int)
    | PushLoadFront(v: int, r: Rear, k: nat)
    | PushCheck(v: int, r: Rear, k: nat, f: Front, j: nat)
    | PushFinLoad(v: int, r: Rear, k: nat, f: Front, j: nat)
    | PushFinCas(v: int, r: Rear, k: nat, f: Front, j: nat, expected: Node)
    | PushLoadCtr(v: int, r: Rear, k: nat, f: Front, j: nat)
    | PushCas(r: Rear, k: nat, f: Front, j: nat, next: Rear)
    | PopLoadFront
    | PopLoadRear(f: Front, j: nat)
    | PopCheck(f: Front, j: nat, r: Rear, k: nat, sawEmpty: bool)
    | PopFinLoad(f: Front, j: nat, r: Rear, k: nat)
    | PopFinCas(f: Front, j: nat, r: Rear, k: nat, expected: Node)
    | PopEmpty(sawEmpty: bool)
    | PopRead(f: Front, j: nat)
    | PopCas(f: Front, j: nat, ret: int)

  datatype State = State(
    size: nat, rear: Rear, front: Front, nodes: seq<Node>, th: seq<Pc>, aborted: bool,
    vals: seq<int>, R: nat, F: nat)

  datatype Choice = Push(v: int) | Pop | Continue(spurious: bool)
  datatype Act = Act(tid: nat, choice: Choice)

  function Init(n: nat, size: nat): State {
    State(size, Rear(0, 0, 0), Front(1, 0), seq(size, _ => Node(0, 0)), seq(n, _ => Idle), false, [0], 0, 1)
  }

  predicate Shape(s: State) {
    && s.size >= 2 && |s.nodes| == s.size && s.rear.index < s.size && s.front.index < s.size
    && (forall t :: 0 <= t < |s.th| ==> SnapshotsInRange(s.th[t], s.size))
  }

  predicate HasRear(pc: Pc) {
    || pc.PushLoadFront? || pc.PushCheck? || pc.PushFinLoad? || pc.PushFinCas? || pc.PushLoadCtr? || pc.PushCas?
    || pc.PopCheck? || pc.PopFinLoad? || pc.PopFinCas?
  }

  predicate HasFront(pc: Pc) {
    || pc.PushCheck? || pc.PushFinLoad? || pc.PushFinCas? || pc.PushLoadCtr? || pc.PushCas?
    || pc.PopLoadRear? || pc.PopCheck? || pc.PopFinLoad? || pc.PopFinCas? || pc.PopRead? || pc.PopCas?
  }

  predicate SnapshotsInRange(pc: Pc, size: nat) {
    && (HasRear(pc) ==> pc.r.index < size)
    && (HasFront(pc) ==> pc.f.index < size)
    && (pc.PushCas? ==> pc.next.index < size)
  }

  predicate Allowed(s: State, a: Act) {
    a.tid < |s.th| && !s.aborted && (s.th[a.tid].Idle? <==> !a.choice.Continue?)
  }

  function Goto(s: State, t: nat, pc: Pc): State
    requires t < |s.th|
  {
    s.(th := s.th[t := pc])
  }

  // `counter - 1` on a uint32_t
  function Before(counter: nat): nat {
    if counter == 0 then 0xFFFF_FFFF else counter - 1
  }

  // The step stores into a ring slot: the slot CAS of finish_enqueue succeeds.
  predicate WritesSlot(s: State, a: Act)
    requires Shape(s) && Allowed(s, a)
  {
    var pc := s.th[a.tid];
    (pc.PushFinCas? || pc.PopFinCas?) && s.nodes[pc.r.index] == pc.expected && !a.choice.spurious
  }

  // Lines 134-137: the full test after finish_enqueue in push
  function AfterFinish(s: State, t: nat, v: int, r: Rear, k: nat, f: Front, j: nat): State
    requires s.size > 0 && t < |s.th|
  {
    if f.index == (r.index + 2) % s.size then s.(aborted := true)
    else Goto(s, t, PushLoadCtr(v, r, k, f, j))
  }

  function Do(s: State, a: Act): State
    requires Shape(s) && Allowed(s, a)
  {
    var t, pc := a.tid, s.th[a.tid];
    match pc
    case Idle => Goto(s, t, if a.choice.Push? then PushLoadRear(a.choice.v) else PopLoadFront)
    case PushLoadRear(v) => Goto(s, t, PushLoadFront(v, s.rear, s.R))
    case PushLoadFront(v, r, k) => Goto(s, t, PushCheck(v, r, k, s.front, s.F))
    case PushCheck(v, r, k, f, j) =>
      Goto(s, t, if r == s.rear then PushFinLoad(v, r, k, f, j) else PushLoadRear(v))
    case PushFinLoad(v, r, k, f, j) =>
      Goto(s, t, PushFinCas(v, r, k, f, j, Node(s.nodes[r.index].value, Before(r.counter))))
    case PushFinCas(v, r, k, f, j, expected) =>
      if WritesSlot(s, a) then
        AfterFinish(s.(nodes := s.nodes[r.index := Node(r.value, r.counter)]), t, v, r, k, f, j)
      else Goto(s, t, PushFinCas(v, r, k, f, j, s.nodes[r.index]))
    case PushLoadCtr(v, r, k, f, j) =>
      var i := (r.index + 1) % s.size;
      Goto(s, t, PushCas(r, k, f, j, Rear(v, i, s.nodes[i].counter + 1)))
    case PushCas(r, k, f, j, next) =>
      if s.rear == r && !a.choice.spurious then
        Goto(s, t, Idle).(rear := next, vals := s.vals + [next.value], R := s.R + 1)
      else Goto(s, t, PushLoadRear(next.value))
    case PopLoadFront => Goto(s, t, PopLoadRear(s.front, s.F))
    case PopLoadRear(f, j) => Goto(s, t, PopCheck(f, j, s.rear, s.R, s.F == s.R + 1))
    case PopCheck(f, j, r, k, sawEmpty) =>
      if f != s.front then Goto(s, t, PopLoadFront)
      else if f.index == r.index then Goto(s, t, PopFinLoad(f, j, r, k))
      else if f.index == (r.index + 1) % s.size then Goto(s, t, PopEmpty(sawEmpty))
      else Goto(s, t, PopRead(f, j))
    case PopFinLoad(f, j, r, k) =>
      Goto(s, t, PopFinCas(f, j, r, k, Node(s.nodes[r.index].value, Before(r.counter))))
    case PopFinCas(f, j, r, k, expected) =>
      if WritesSlot(s, a) then
        Goto(s, t, if f.index == (r.index + 1) % s.size then PopEmpty(false) else PopRead(f, j))
        .(nodes := s.nodes[r.index := Node(r.value, r.counter)])
      else Goto(s, t, PopFinCas(f, j, r, k, s.nodes[r.index]))
    case PopEmpty(_) => Goto(s, t, Idle)
    case PopRead(f, j) => Goto(s, t, PopCas(f, j, s.nodes[f.index].value))
    case PopCas(f, j, ret) =>
      if s.front == f then
        Goto(s, t, Idle).(front := Front((f.index + 1) % s.size, f.counter + 1), F := s.F + 1)
      else Goto(s, t, PopLoadFront)
  }

  // --- tickets, slots and counters --------------------------------------------------------------

  function Slot(k: nat, n: nat): nat
    requires n > 0
  {
    k % n
  }

  // The counter stored with ticket k: one more per lap, ticket 0 counting as lap 0.
  function Lap(k: nat, n: nat): nat
    requires n > 0
  {
    (k + n - 1) / n
  }

  lemma SlotPeriod(k: nat, n: nat)
    requires n > 0
    ensures Slot(k + n, n) == Slot(k, n) < n && Lap(k + n, n) == Lap(k, n) + 1
  {
    AddPeriod(k, n);
    AddPeriod(k + n - 1, n);
  }

  lemma AddPeriod(a: nat, n: nat)
    requires n > 0
    ensures (a + n) % n == a % n && (a + n) / n == a / n + 1
  {
    var q, r := a / n, a % n;
    assert a == q * n + r;
    assert a + n == (q + 1) * n + r;
    Unique(a + n, n, q + 1, r);
  }

  lemma SlotDistinct(k: nat, k': nat, n: nat)
    requires n > 0 && k < k' < k + n
    ensures Slot(k, n) != Slot(k', n)
  {
    var q, r := k / n, k % n;
    assert k == q * n + r;
    var d := k' - k;
    if r + d < n { Unique(k', n, q, r + d); }
    else { assert k' == (q + 1) * n + (r + d - n); Unique(k', n, q + 1, r + d - n); }
  }

  lemma SlotNext(k: nat, d: nat, n: nat)
    requires n > 0
    ensures (Slot(k, n) + d) % n == Slot(k + d, n)
  {
    var q, r := (Slot(k, n) + d) / n, (Slot(k, n) + d) % n;
    assert k == (k / n) * n + Slot(k, n);
    assert Slot(k, n) + d == q * n + r;
    assert k + d == (k / n + q) * n + r;
    Unique(k + d, n, k / n + q, r);
  }

  lemma {:induction false} SlotLapUnique(k: nat, k': nat, n: nat)
    requires n > 0 && k <= k' && Slot(k, n) == Slot(k', n) && Lap(k, n) == Lap(k', n)
    ensures k == k'
    decreases k'
  {
    if k + n <= k' {
      SlotPeriod(k' - n, n);
      LapMonotone(k, k' - n, n);
    } else if k < k' {
      SlotDistinct(k, k', n);
    }
  }

  lemma {:induction false} LapMonotone(k: nat, k': nat, n: nat)
    requires n > 0 && k <= k'
    ensures Lap(k, n) <= Lap(k', n)
  {
    var q, m := (k + n - 1) / n, (k + n - 1) % n;
    var q', m' := (k' + n - 1) / n, (k' + n - 1) % n;
    assert k + n - 1 == q * n + m && k' + n - 1 == q' * n + m';
    Less(q', q, n, m', m);
  }

  lemma FirstLap(k: nat, n: nat)
    requires 0 < k <= n
    ensures Lap(k, n) == 1 && (k < n ==> Slot(k, n) == k)
  {
    Unique(k + n - 1, n, 1, k - 1);
    if k < n { Unique(k, n, 0, k); }
  }

  // ---------------------------------------------------------------------------------------
  // Invariant
  // ---------------------------------------------------------------------------------------

  // What the ring slot of ticket k holds once the enqueue is finished, and before that.
  function Finished(s: State, k: nat): Node
    requires k < |s.vals| && s.size > 0
  {
    Node(s.vals[k], Lap(k, s.size))
  }

  function Unfinished(s: State, k: nat): Node
    requires k < |s.vals| && s.size > 0
  {
    if k >= s.size then Finished(s, k - s.size) else Node(0, 0)
  }

  function RearOf(s: State, k: nat): Rear
    requires k < |s.vals| && s.size > 0
  {
    Rear(s.vals[k], Slot(k, s.size), Lap(k, s.size))
  }

  function FrontOf(s: State, j: nat): Front
    requires j > 0 && s.size > 0
  {
    Front(Slot(j, s.size), j - 1)
  }

  function At(s: State, k: nat): Node
    requires s.size > 0 && |s.nodes| == s.size
  {
    assert Slot(k, s.size) < s.size by { SlotPeriod(k, s.size); }
    s.nodes[Slot(k, s.size)]
  }

  predicate Core(s: State) {
    && s.size >= 2 && |s.nodes| == s.size && |s.vals| == s.R + 1
    && 1 <= s.F <= s.R + 1 <= s.F + s.size - 1
    && s.rear == RearOf(s, s.R) && s.front == FrontOf(s, s.F)
  }

  // All queued elements but the last are in their slots; the last one may still be only in rear.
  ghost predicate Ring(s: State)
    requires Core(s)
  {
    && (forall k: nat {:trigger At(s, k)} :: k < s.R < k + s.size ==> At(s, k) == Finished(s, k))
    && (At(s, s.R) == Finished(s, s.R) || At(s, s.R) == Unfinished(s, s.R))
    && (forall i :: s.R < i < s.size ==> s.nodes[i] == Node(0, 0))
  }

  predicate Window(j: nat, k: nat, room: nat) {
    j <= k + 1 <= j + room
  }

  predicate InSlot(s: State, k: nat)
    requires Core(s)
  {
    k <= s.R && At(s, k) == Finished(s, k)
  }

  predicate SnapshotInv(s: State, pc: Pc)
    requires Core(s)
  {
    && (HasRear(pc) ==> pc.k <= s.R && pc.r == RearOf(s, pc.k))
    && (HasFront(pc) ==> 1 <= pc.j <= s.F && pc.f == FrontOf(s, pc.j))
  }

  predicate PushInv(s: State, pc: Pc)
    requires Core(s)
  {
    && (pc.PushCheck? && s.R == pc.k ==> Window(pc.j, pc.k, s.size - 1))
    && (pc.PushFinLoad? || pc.PushFinCas? ==> Window(pc.j, pc.k, s.size - 1))
    && (pc.PushLoadCtr? || pc.PushCas? ==> Window(pc.j, pc.k, s.size - 2) && (s.R == pc.k ==> InSlot(s, pc.k)))
    && (pc.PushCas? ==> pc.next.index == Slot(pc.k + 1, s.size) && (s.R == pc.k ==> pc.next.counter == Lap(pc.k + 1, s.size)))
  }

  predicate PopInv(s: State, pc: Pc)
    requires Core(s)
  {
    && (pc.PopCheck? && s.F == pc.j ==> Window(pc.j, pc.k, s.size - 1) && (pc.sawEmpty <==> pc.j == pc.k + 1))
    && (pc.PopFinLoad? || pc.PopFinCas? ==> pc.j == pc.k)
    && (pc.PopEmpty? ==> pc.sawEmpty)
    && (pc.PopRead? || pc.PopCas? ==> pc.j <= s.R && (s.F == pc.j ==> InSlot(s, pc.j)))
    && (pc.PopCas? && s.F == pc.j ==> pc.ret == s.vals[pc.j])
  }

  predicate PcInv(s: State, pc: Pc)
    requires Core(s)
  {
    SnapshotInv(s, pc) && PushInv(s, pc) && PopInv(s, pc)
  }

  ghost predicate Inv(s: State) {
    && Core(s) && Ring(s)
    && (forall t {:trigger s.th[t]} :: 0 <= t < |s.th| ==> PcInv(s, s.th[t]))
  }

  // No slot is written for a rear snapshot `size` or more enqueues old, unless it holds that value already.
  predicate FreshWrite(s: State, a: Act)
    requires Shape(s) && Allowed(s, a)
  {
    WritesSlot(s, a) ==>
      var pc := s.th[a.tid];
      s.R < pc.k + s.size || s.nodes[pc.r.index] == Node(pc.r.value, pc.r.counter)
  }

  // Points at which a thread relies on the enqueue of the last ticket being finished.
  predicate NeedsLast(s: State, pc: Pc) {
    || ((pc.PushLoadCtr? || pc.PushCas?) && pc.k == s.R)
    || ((pc.PopRead? || pc.PopCas?) && pc.j == s.F == s.R)
  }

  // A slot write is fresh, or it is exactly `size` enqueues old and thus takes back the last, still
  // unread enqueue, at a moment when no thread relies on its being finished.
  predicate Harmless(s: State, a: Act)
    requires Shape(s) && Allowed(s, a)
  {
    || FreshWrite(s, a)
    || (s.R == s.th[a.tid].k + s.size && forall u :: 0 <= u < |s.th| ==> !NeedsLast(s, s.th[u]))
  }

  // --- interference -------------------------------------------------------------------------------

  ghost predicate Evolves(s: State, s': State) {
    && Core(s) && Core(s') && s'.size == s.size && s.vals <= s'.vals && s.F <= s'.F
    && (forall k: nat {:trigger At(s', k)} ::
          k <= s.R && s'.R < k + s.size && At(s, k) == Finished(s, k) ==> At(s', k) == Finished(s, k))
  }

  lemma SameTicket(s: State, s': State, k: nat)
    requires Evolves(s, s') && k <= s.R
    ensures s'.vals[k] == s.vals[k] && RearOf(s', k) == RearOf(s, k)
    ensures s'.R < k + s.size && InSlot(s, k) ==> InSlot(s', k)
  {
  }

  lemma SnapshotStable(s: State, s': State, pc: Pc)
    requires Evolves(s, s') && SnapshotInv(s, pc)
    ensures SnapshotInv(s', pc)
  {
    if HasRear(pc) { SameTicket(s, s', pc.k); }
    hide RearOf;
  }

  lemma PushStable(s: State, s': State, pc: Pc)
    requires Evolves(s, s') && SnapshotInv(s, pc) && PushInv(s, pc)
    ensures PushInv(s', pc)
  {
  }

  lemma PopStable(s: State, s': State, pc: Pc)
    requires Evolves(s, s') && SnapshotInv(s, pc) && PopInv(s, pc)
    ensures PopInv(s', pc)
  {
  }

  lemma PcStable(s: State, s': State, pc: Pc)
    requires Evolves(s, s') && PcInv(s, pc)
    ensures PcInv(s', pc)
  {
    hide Evolves, SnapshotInv, PushInv, PopInv;
    SnapshotStable(s, s', pc);
    PushStable(s, s', pc);
    PopStable(s, s', pc);
  }

  lemma InRange(s: State)
    requires Inv(s)
    ensures Shape(s)
  {
  }

  lemma Conclude(s: State, s': State, t: nat)
    requires Inv(s) && t < |s.th| && Evolves(s, s') && Ring(s') && |s'.th| == |s.th|
    requires forall u :: 0 <= u < |s.th| && u != t ==> s'.th[u] == s.th[u]
    requires PcInv(s', s'.th[t])
    ensures Inv(s')
  {
    assert Core(s');
    hide Evolves, Ring, PcInv;
    forall u | 0 <= u < |s'.th| ensures PcInv(s', s'.th[u]) {
      if u != t { PcStable(s, s', s.th[u]); }
    }
  }

  // A step that changes only the thread's own point.
  lemma Moves(s: State, t: nat, pc: Pc)
    requires Inv(s) && t < |s.th| && PcInv(s, pc)
    ensures Inv(Goto(s, t, pc))
  {
    hide Slot, Lap;
    var s' := Goto(s, t, pc);
    assert forall k: nat :: At(s', k) == At(s, k);
    Conclude(s, s', t);
  }

  // Equal snapshots carry equal tickets.
  lemma SameRear(s: State, k: nat)
    requires Core(s) && k <= s.R
    ensures RearOf(s, k) == s.rear <==> k == s.R
  {
    if RearOf(s, k) == s.rear { SlotLapUnique(k, s.R, s.size); }
  }

  lemma PushLoads(s: State, t: nat, a: Act)
    requires Inv(s) && Shape(s) && Allowed(s, a) && t == a.tid
    requires s.th[t].PushLoadRear? || s.th[t].PushLoadFront? || s.th[t].PushCheck? || s.th[t].PushFinLoad?
    ensures Inv(Do(s, a))
  {
    var pc := s.th[t];
    hide Slot, Lap;
    match pc
    case PushLoadRear(v) => Moves(s, t, PushLoadFront(v, s.rear, s.R));
    case PushLoadFront(v, r, k) => Moves(s, t, PushCheck(v, r, k, s.front, s.F));
    case PushCheck(v, r, k, f, j) =>
      SameRear(s, k);
      Moves(s, t, if r == s.rear then PushFinLoad(v, r, k, f, j) else PushLoadRear(v));
    case PushFinLoad(v, r, k, f, j) =>
      Moves(s, t, PushFinCas(v, r, k, f, j, Node(s.nodes[r.index].value, Before(r.counter))));
  }

  // Writing the finished node of ticket k into its slot.
  lemma WriteKeeps(s: State, k: nat, s1: State)
    requires Core(s) && Ring(s) && k <= s.R < k + s.size
    requires s1 == s.(nodes := s.nodes[Slot(k, s.size) := Finished(s, k)], th := s1.th)
    ensures Core(s1) && Ring(s1) && Evolves(s, s1) && At(s1, k) == Finished(s, k)
  {
    SlotPeriod(k, s.size);
    forall j: nat ensures j <= s.R < j + s.size && j != k ==> At(s1, j) == At(s, j) {
      if j <= s.R < j + s.size && j != k {
        if j < k { SlotDistinct(j, k, s.size); } else { SlotDistinct(k, j, s.size); }
      }
    }
    if k < s.size { SlotIsTicket(k, s.size); } else { SlotPeriod(k - s.size, s.size); }
    hide Slot, Lap;
    assert forall i :: s.R < i < s.size ==> s1.nodes[i] == s.nodes[i];
    assert Finished(s1, k) == Finished(s, k);
  }

  lemma SlotIsTicket(k: nat, n: nat)
    requires k < n
    ensures Slot(k, n) == k
  {
  }

  // The slot write of finish_enqueue, for a rear snapshot that is not stale or a write that changes nothing.
  lemma SlotWrite(s: State, k: nat, s': State)
    requires Core(s) && Ring(s) && k <= s.R && Slot(k, s.size) < s.size
    requires s.R < k + s.size || s.nodes[Slot(k, s.size)] == Finished(s, k)
    requires s' == s.(nodes := s.nodes[Slot(k, s.size) := Finished(s, k)], th := s'.th, aborted := s'.aborted)
    ensures Core(s') && Ring(s') && Evolves(s, s') && InSlot(s', k)
  {
    var s1 := s.(nodes := s'.nodes);
    if s.R < k + s.size {
      WriteKeeps(s, k, s1);
    } else {
      assert s1.nodes == s.nodes;
      assert forall i: nat :: At(s1, i) == At(s, i);
    }
    hide Slot, Lap;
    assert forall i: nat :: At(s', i) == At(s1, i);
    assert forall i: nat :: i <= s.R ==> Finished(s', i) == Finished(s, i) == Finished(s1, i);
    assert s.R + 1 == |s.vals| && Unfinished(s', s.R) == Unfinished(s1, s.R);
  }

  lemma PushFinish(s: State, a: Act)
    requires Inv(s) && Shape(s) && Allowed(s, a) && s.th[a.tid].PushFinCas? && FreshWrite(s, a)
    ensures Inv(Do(s, a))
  {
    var t, pc, s' := a.tid, s.th[a.tid], Do(s, a);
    assert PcInv(s, pc);
    SlotNext(pc.k, 2, s.size);
    SlotPeriod(pc.j, s.size);
    assert pc.r == RearOf(s, pc.k) && pc.f == FrontOf(s, pc.j);
    if WritesSlot(s, a) {
      assert Finished(s, pc.k) == Node(pc.r.value, pc.r.counter);
      SlotWrite(s, pc.k, s');
      PcStable(s, s', pc);
      hide Slot, Lap;
      assert Window(pc.j, pc.k, s.size - 1);
      assert Slot(pc.j, s.size) != Slot(pc.k + 2, s.size) ==> Window(pc.j, pc.k, s.size - 2);
      Conclude(s, s', t);
    } else {
      Moves(s, t, PushFinCas(pc.v, pc.r, pc.k, pc.f, pc.j, s.nodes[pc.r.index]));
    }
  }

  // The slot that the next push will use still holds the counter of the previous lap.
  lemma NextCounter(s: State)
    requires Core(s) && Ring(s) && InSlot(s, s.R)
    ensures At(s, s.R + 1).counter + 1 == Lap(s.R + 1, s.size)
  {
    var k := s.R + 1;
    if k < s.size {
      FirstLap(k, s.size);
    } else {
      SlotPeriod(k - s.size, s.size);
      assert At(s, k) == At(s, k - s.size);
    }
  }

  lemma PushCounter(s: State, a: Act)
    requires Inv(s) && Shape(s) && Allowed(s, a) && s.th[a.tid].PushLoadCtr?
    ensures Inv(Do(s, a))
  {
    var t, pc := a.tid, s.th[a.tid];
    assert PcInv(s, pc);
    SlotNext(pc.k, 1, s.size);
    if s.R == pc.k { NextCounter(s); }
    hide Slot, Lap;
    var i := (pc.r.index + 1) % s.size;
    assert i == Slot(pc.k + 1, s.size) && s.nodes[i] == At(s, pc.k + 1);
    Moves(s, t, PushCas(pc.r, pc.k, pc.f, pc.j, Rear(pc.v, i, s.nodes[i].counter + 1)));
  }

  // Enqueue: the value of ticket R + 1 goes into `rear`.
  lemma PushLinks(s: State, a: Act)
    requires Inv(s) && Shape(s) && Allowed(s, a) && s.th[a.tid].PushCas?
    ensures Inv(Do(s, a))
  {
    var t, pc, s' := a.tid, s.th[a.tid], Do(s, a);
    assert PcInv(s, pc);
    if s.rear == pc.r && !a.choice.spurious {
      SameRear(s, pc.k);
      RearMoves(s, pc.next, s');
      Conclude(s, s', t);
    } else {
      hide Slot, Lap;
      Moves(s, t, PushLoadRear(pc.next.value));
    }
  }

  lemma RearMoves(s: State, next: Rear, s': State)
    requires Core(s) && Ring(s) && InSlot(s, s.R) && s.R + 2 <= s.F + s.size - 1
    requires next.index == Slot(s.R + 1, s.size) && next.counter == Lap(s.R + 1, s.size)
    requires s' == s.(rear := next, vals := s.vals + [next.value], R := s.R + 1, th := s'.th)
    ensures Core(s') && Ring(s') && Evolves(s, s')
  {
    var k := s.R + 1;
    if k < s.size { SlotIsTicket(k, s.size); } else { SlotPeriod(k - s.size, s.size); }
    hide Slot, Lap;
    assert forall i: nat :: At(s', i) == At(s, i);
    assert forall i: nat :: i <= s.R ==> Finished(s', i) == Finished(s, i);
    assert k >= s.size ==> At(s', k) == At(s, k - s.size);
  }

  lemma PopLoads(s: State, a: Act)
    requires Inv(s) && Shape(s) && Allowed(s, a)
    requires var pc := s.th[a.tid]; pc.PopLoadFront? || pc.PopLoadRear? || pc.PopFinLoad? || pc.PopRead?
    ensures Inv(Do(s, a))
  {
    var t, pc := a.tid, s.th[a.tid];
    assert PcInv(s, pc);
    hide Slot, Lap;
    match pc
    case PopLoadFront => Moves(s, t, PopLoadRear(s.front, s.F));
    case PopLoadRear(f, j) => Moves(s, t, PopCheck(f, j, s.rear, s.R, s.F == s.R + 1));
    case PopFinLoad(f, j, r, k) =>
      Moves(s, t, PopFinCas(f, j, r, k, Node(s.nodes[r.index].value, Before(r.counter))));
    case PopRead(f, j) =>
      assert s.nodes[f.index] == At(s, j);
      Moves(s, t, PopCas(f, j, s.nodes[f.index].value));
  }

  // The index tests of pop compare tickets.
  lemma IndexTests(j: nat, k: nat, n: nat)
    requires n >= 2 && Window(j, k, n - 1)
    ensures Slot(j, n) == Slot(k, n) <==> j == k
    ensures Slot(j, n) == (Slot(k, n) + 1) % n <==> j == k + 1
  {
    SlotNext(k, 1, n);
    if j > k { SlotDistinct(k, j, n); }
    if j < k { SlotDistinct(j, k, n); }
    if j < k + 1 { SlotDistinct(j, k + 1, n); }
  }

  lemma PopChecks(s: State, a: Act)
    requires Inv(s) && Shape(s) && Allowed(s, a) && s.th[a.tid].PopCheck?
    ensures Inv(Do(s, a))
  {
    var t, pc := a.tid, s.th[a.tid];
    assert PcInv(s, pc);
    if pc.f == s.front { IndexTests(pc.j, pc.k, s.size); }
    hide Slot, Lap;
    assert pc.f == FrontOf(s, pc.j) && s.front == FrontOf(s, s.F) && pc.r == RearOf(s, pc.k);
    assert At(s, pc.j) == At(s, pc.j);
    if pc.f != s.front { Moves(s, t, PopLoadFront); }
    else if pc.f.index == pc.r.index { Moves(s, t, PopFinLoad(pc.f, pc.j, pc.r, pc.k)); }
    else if pc.f.index == (pc.r.index + 1) % s.size { Moves(s, t, PopEmpty(pc.sawEmpty)); }
    else { Moves(s, t, PopRead(pc.f, pc.j)); }
  }

  lemma PopFinish(s: State, a: Act)
    requires Inv(s) && Shape(s) && Allowed(s, a) && s.th[a.tid].PopFinCas? && FreshWrite(s, a)
    ensures Inv(Do(s, a))
  {
    var t, pc, s' := a.tid, s.th[a.tid], Do(s, a);
    assert PcInv(s, pc);
    assert pc.r == RearOf(s, pc.k) && pc.f == FrontOf(s, pc.j) && pc.j == pc.k;
    IndexTests(pc.j, pc.k, s.size);
    if WritesSlot(s, a) {
      assert Finished(s, pc.k) == Node(pc.r.value, pc.r.counter);
      SlotWrite(s, pc.k, s');
      hide Slot, Lap;
      assert PcInv(s', PopRead(pc.f, pc.j));
      Conclude(s, s', t);
    } else {
      hide Slot, Lap;
      Moves(s, t, PopFinCas(pc.f, pc.j, pc.r, pc.k, s.nodes[pc.r.index]));
    }
  }

  lemma FrontMoves(s: State, s': State)
    requires Core(s) && Ring(s) && s.F <= s.R
    requires s' == s.(front := FrontOf(s, s.F + 1), F := s.F + 1, th := s'.th)
    ensures Core(s') && Ring(s') && Evolves(s, s')
  {
    hide Slot, Lap;
    assert forall i: nat :: At(s', i) == At(s, i);
  }

  // Dequeue: `front` passes ticket F.
  lemma PopTakes(s: State, a: Act)
    requires Inv(s) && Shape(s) && Allowed(s, a) && s.th[a.tid].PopCas?
    ensures Inv(Do(s, a))
  {
    var t, pc, s' := a.tid, s.th[a.tid], Do(s, a);
    assert PcInv(s, pc);
    if s.front == pc.f {
      SlotNext(s.F, 1, s.size);
      FrontMoves(s, s');
      hide Slot, Lap, Ring, Evolves;
      Conclude(s, s', t);
    } else {
      hide Slot, Lap;
      Moves(s, t, PopLoadFront);
    }
  }

  lemma FreshKeeps(s: State, a: Act)
    requires Inv(s) && Shape(s) && Allowed(s, a) && FreshWrite(s, a)
    ensures Inv(Do(s, a))
  {
    var t, pc := a.tid, s.th[a.tid];
    hide Inv, Do, Shape, FreshWrite;
    match pc
    case PushLoadRear(_) => PushLoads(s, t, a);
    case PushLoadFront(_, _, _) => PushLoads(s, t, a);
    case PushCheck(_, _, _, _, _) => PushLoads(s, t, a);
    case PushFinLoad(_, _, _, _, _) => PushLoads(s, t, a);
    case PushFinCas(_, _, _, _, _, _) => PushFinish(s, a);
    case PushLoadCtr(_, _, _, _, _) => PushCounter(s, a);
    case PushCas(_, _, _, _, _) => PushLinks(s, a);
    case PopLoadFront => PopLoads(s, a);
    case PopLoadRear(_, _) => PopLoads(s, a);
    case PopCheck(_, _, _, _, _) => PopChecks(s, a);
    case PopFinLoad(_, _, _, _) => PopLoads(s, a);
    case PopFinCas(_, _, _, _, _) => PopFinish(s, a);
    case PopRead(_, _) => PopLoads(s, a);
    case PopCas(_, _, _) => PopTakes(s, a);
    case Idle => Starts(s, a);
    case PopEmpty(_) => Starts(s, a);
  }

  lemma Starts(s: State, a: Act)
    requires Inv(s) && Shape(s) && Allowed(s, a) && (s.th[a.tid].Idle? || s.th[a.tid].PopEmpty?)
    ensures Inv(Do(s, a))
  {
    var t, pc, c := a.tid, s.th[a.tid], a.choice;
    hide Slot, Lap;
    Moves(s, t, if pc.PopEmpty? then Idle else if c.Push? then PushLoadRear(c.v) else PopLoadFront);
  }

  // --- stale slot writes ---------------------------------------------------------------------------

  // The latest ticket that uses the slot of ticket k.
  lemma {:induction false} LatestUser(k: nat, R: nat, n: nat) returns (q: nat)
    requires n > 0 && k <= R
    ensures k <= q <= R < q + n && Slot(q, n) == Slot(k, n)
    decreases R - k
  {
    if R < k + n {
      q := k;
    } else {
      SlotPeriod(k, n);
      q := LatestUser(k + n, R, n);
    }
  }

  // What a changing write from a stale snapshot does: it puts the node of ticket k into the slot.
  lemma StaleWrites(s: State, a: Act)
    requires Inv(s) && Shape(s) && Allowed(s, a) && !FreshWrite(s, a)
    ensures var pc, s' := s.th[a.tid], Do(s, a);
      && WritesSlot(s, a) && pc.k + s.size <= s.R && pc.r == RearOf(s, pc.k) && Slot(pc.k, s.size) < s.size
      && s' == s.(nodes := s.nodes[Slot(pc.k, s.size) := Finished(s, pc.k)], th := s'.th, aborted := s'.aborted)
      && Core(s') && At(s', pc.k) == Finished(s, pc.k) != At(s, pc.k)
  {
    assert PcInv(s, s.th[a.tid]);
    SlotPeriod(s.th[a.tid].k, s.size);
    hide Ring, PushInv, PopInv, Slot, Lap;
  }

  // A stale write over an older enqueue than the last one, or over a last one that somebody needs.
  lemma StaleBreaks(s: State, a: Act)
    requires Inv(s) && Shape(s) && Allowed(s, a) && !Harmless(s, a)
    ensures !Inv(Do(s, a))
  {
    var k, s' := s.th[a.tid].k, Do(s, a);
    StaleWrites(s, a);
    var q := LatestUser(k, s.R, s.size);
    if Lap(q, s.size) == Lap(k, s.size) { SlotLapUnique(k, q, s.size); }
    if s.R > k + s.size && s.R >= s.size {
      SlotPeriod(s.R - s.size, s.size);
      if q == s.R && Lap(s.R - s.size, s.size) == Lap(k, s.size) { SlotLapUnique(k, s.R - s.size, s.size); }
    }
    hide Slot, Lap;
    assert At(s', q) == Finished(s, k) != Finished(s', q);
    if s.R == k + s.size {
      SlotPeriod(k, s.size);
      SlotLapUnique(k, k, s.size);
      var u :| 0 <= u < |s.th| && NeedsLast(s, s.th[u]);
      OthersStay(s, a, u);
      LastNeeded(s, s', u, k);
    }
  }

  lemma LastNeeded(s: State, s': State, u: nat, k: nat)
    requires Core(s) && Core(s') && u < |s.th| && u < |s'.th| && NeedsLast(s, s.th[u]) && s'.th[u] == s.th[u]
    requires s'.R == s.R && s'.F == s.F && !InSlot(s', s.R)
    ensures !PcInv(s', s'.th[u])
  {
  }

  // A write exactly `size` enqueues old takes back the last enqueue, which any later operation redoes.
  lemma UndoKeeps(s: State, a: Act)
    requires Inv(s) && Shape(s) && Allowed(s, a) && !FreshWrite(s, a) && Harmless(s, a)
    ensures Inv(Do(s, a))
  {
    hide Inv, Do, Ring, PcInv, Slot, Lap;
    var t, k, s' := a.tid, s.th[a.tid].k, Do(s, a);
    StaleWrites(s, a);
    SameThreads(s, a);
    assert Core(s) && Ring(s) && PcInv(s, s.th[t]) by { InvParts(s, t); }
    UndoRing(s, k, s');
    UndoOwn(s, a);
    forall u | 0 <= u < |s'.th| ensures PcInv(s', s'.th[u]) {
      OthersStay(s, a, u);
      if u != t {
        InvParts(s, u);
        UndoPc(s, k, s', s.th[u]);
      }
    }
    OthersStay(s, a, t);
    FromParts(s');
  }

  lemma InvParts(s: State, t: nat)
    requires Inv(s) && t < |s.th|
    ensures Core(s) && Ring(s) && PcInv(s, s.th[t])
  {
  }

  lemma FromParts(s: State)
    requires Core(s) && Ring(s) && forall t {:trigger s.th[t]} :: 0 <= t < |s.th| ==> PcInv(s, s.th[t])
    ensures Inv(s)
  {
  }

  // The write that takes back the last enqueue.
  ghost predicate TakesBack(s: State, k: nat, s': State) {
    && Core(s) && Core(s') && s.R == k + s.size && Slot(k, s.size) < s.size
    && s' == s.(nodes := s.nodes[Slot(k, s.size) := Finished(s, k)], th := s'.th, aborted := s'.aborted)
  }

  lemma UndoSlots(s: State, k: nat, s': State, q: nat)
    requires TakesBack(s, k, s') && q < s.R < q + s.size
    ensures At(s', q) == At(s, q)
  {
    SlotPeriod(k, s.size);
    SlotDistinct(q, s.R, s.size);
    hide Core;
  }

  lemma UndoRing(s: State, k: nat, s': State)
    requires TakesBack(s, k, s') && Ring(s)
    ensures Ring(s')
  {
    SlotPeriod(k, s.size);
    hide Slot, Lap;
    forall q: nat {:trigger At(s', q)} | q < s.R < q + s.size ensures At(s', q) == Finished(s', q) {
      UndoSlots(s, k, s', q);
    }
  }

  lemma UndoPc(s: State, k: nat, s': State, pc: Pc)
    requires TakesBack(s, k, s') && PcInv(s, pc) && !NeedsLast(s, pc)
    ensures PcInv(s', pc)
  {
    hide Slot, Lap;
    if (pc.PopRead? || pc.PopCas?) && s.F == pc.j { UndoSlots(s, k, s', pc.j); }
  }

  lemma UndoOwn(s: State, a: Act)
    requires Shape(s) && Allowed(s, a) && WritesSlot(s, a) && Core(s) && PcInv(s, s.th[a.tid])
    requires TakesBack(s, s.th[a.tid].k, Do(s, a))
    ensures PcInv(Do(s, a), Do(s, a).th[a.tid])
  {
    var pc := s.th[a.tid];
    if pc.PushFinCas? {
      SlotNext(pc.k, 2, s.size);
      SlotPeriod(pc.j, s.size);
    } else {
      IndexTests(pc.j, pc.k, s.size);
    }
    hide Slot, Lap;
  }

  // The slot write is the only step that can break the invariant, and it does so exactly if it is not harmless.
  lemma StepKeepsIff(s: State, a: Act)
    requires Inv(s) && Shape(s) && Allowed(s, a)
    ensures Inv(Do(s, a)) <==> Harmless(s, a)
  {
    hide Inv, Do, Shape, FreshWrite;
    if FreshWrite(s, a) { FreshKeeps(s, a); }
    else if Harmless(s, a) { UndoKeeps(s, a); }
    else { StaleBreaks(s, a); }
  }

  // ---------------------------------------------------------------------------------------
  // Runs
  // ---------------------------------------------------------------------------------------

  lemma InitInv(n: nat, size: nat)
    requires size >= 2
    ensures Inv(Init(n, size))
  {
  }

  // Any run by n threads; and one in which every slot write is harmless.
  ghost predicate AnyRun(tr: seq<State>, acts: seq<Act>, n: nat, size: nat) {
    && |tr| == |acts| + 1 && size >= 2 && tr[0] == Init(n, size)
    && (forall i :: 0 <= i < |acts| ==> Shape(tr[i]) && Allowed(tr[i], acts[i]) && tr[i + 1] == Do(tr[i], acts[i]))
  }

  ghost predicate Run(tr: seq<State>, acts: seq<Act>, n: nat, size: nat) {
    AnyRun(tr, acts, n, size) && forall i :: 0 <= i < |acts| ==> Harmless(tr[i], acts[i])
  }

  lemma {:induction false} RunKeeps(tr: seq<State>, acts: seq<Act>, n: nat, size: nat, i: nat)
    requires Run(tr, acts, n, size) && i < |tr|
    ensures Inv(tr[i]) && Shape(tr[i])
  {
    if i == 0 {
      InitInv(n, size);
    } else {
      RunKeeps(tr, acts, n, size, i - 1);
      hide Inv, Do, Shape, Harmless;
      StepKeepsIff(tr[i - 1], acts[i - 1]);
    }
    InRange(tr[i]);
  }

  // The invariant holds throughout a run exactly if every slot write of the run is harmless.
  lemma RunKeepsIff(tr: seq<State>, acts: seq<Act>, n: nat, size: nat)
    requires AnyRun(tr, acts, n, size)
    ensures (forall i :: 0 <= i < |tr| ==> Inv(tr[i])) <==> Run(tr, acts, n, size)
  {
    hide Inv, Do, Shape, Harmless, Allowed;
    if Run(tr, acts, n, size) {
      forall i | 0 <= i < |tr| ensures Inv(tr[i]) { RunKeeps(tr, acts, n, size, i); }
    } else {
      var i :| 0 <= i < |acts| && !Harmless(tr[i], acts[i]);
      if Inv(tr[i]) { StepKeepsIff(tr[i], acts[i]); }
      assert tr[i + 1] == Do(tr[i], acts[i]);
    }
  }

  // Every queued element but the last is in its ring slot, with the value that was pushed.
  predicate QueuedInSlots(s: State)
    requires Core(s)
  {
    forall k :: s.F <= k < s.R ==> InSlot(s, k)
  }

  lemma InRing(tr: seq<State>, acts: seq<Act>, n: nat, size: nat, i: nat)
    requires Run(tr, acts, n, size) && i < |tr|
    ensures Core(tr[i]) && QueuedInSlots(tr[i])
    ensures tr[i].F <= tr[i].R ==> tr[i].rear.value == Abs(tr[i])[tr[i].R - tr[i].F]
  {
    RunKeeps(tr, acts, n, size, i);
    hide Run, Slot, Lap;
  }

  // --- refinement of a FIFO queue ------------------------------------------------------------

  function Abs(s: State): seq<int> {
    if s.F <= |s.vals| then s.vals[s.F..] else []
  }

  // The linearization point passed by a step, read off the concrete state.
  function EventOf(s: State, a: Act): Event
    requires Shape(s) && Allowed(s, a)
  {
    var pc := s.th[a.tid];
    if pc.PushCas? && s.rear == pc.r && !a.choice.spurious then Enq(pc.next.value)
    else if pc.PopCas? && s.front == pc.f then Deq(pc.ret)
    else if pc.PopLoadRear? && s.front == pc.f && pc.f.index == (s.rear.index + 1) % s.size then SawEmpty
    else Tau
  }

  lemma Silent(s: State, a: Act)
    requires Shape(s) && Allowed(s, a) && !s.th[a.tid].PushCas? && !s.th[a.tid].PopCas?
    ensures Do(s, a).vals == s.vals && Do(s, a).F == s.F && Do(s, a).R == s.R
  {
  }

  lemma PushIsEnqueue(s: State, a: Act)
    requires Inv(s) && Shape(s) && Allowed(s, a) && s.th[a.tid].PushCas?
    ensures FifoStep(Abs(s), EventOf(s, a), Abs(Do(s, a))) && Do(s, a).vals == s.vals + Given(EventOf(s, a))
  {
    hide Slot, Lap, Ring, PcInv;
  }

  lemma PopIsDequeue(s: State, a: Act)
    requires Inv(s) && Shape(s) && Allowed(s, a) && s.th[a.tid].PopCas?
    ensures FifoStep(Abs(s), EventOf(s, a), Abs(Do(s, a))) && Do(s, a).vals == s.vals + Given(EventOf(s, a))
  {
    assert PcInv(s, s.th[a.tid]);
    hide Slot, Lap, Ring, InSlot, PcInv;
  }

  // Push takes effect at the CAS of rear, pop at the CAS of front, "empty" at the load of rear.
  lemma StepIsFifo(s: State, a: Act)
    requires Inv(s) && Shape(s) && Allowed(s, a)
    ensures FifoStep(Abs(s), EventOf(s, a), Abs(Do(s, a))) && Do(s, a).vals == s.vals + Given(EventOf(s, a))
  {
    var pc := s.th[a.tid];
    if pc.PushCas? {
      PushIsEnqueue(s, a);
    } else if pc.PopCas? {
      PopIsDequeue(s, a);
    } else {
      Silent(s, a);
      assert Core(s);
      hide Do, Inv;
      if pc.PopLoadRear? { IndexTests(s.F, s.R, s.size); }
    }
  }

  // The linearization points passed in the first i steps.
  function Events(tr: seq<State>, acts: seq<Act>, i: nat): (es: seq<Event>)
    requires i <= |acts| < |tr| && forall j :: 0 <= j < i ==> Shape(tr[j]) && Allowed(tr[j], acts[j])
    ensures |es| == i
  {
    if i == 0 then [] else Events(tr, acts, i - 1) + [EventOf(tr[i - 1], acts[i - 1])]
  }

  // In every run the values popped so far, followed by the queue, are the values pushed so far.
  lemma {:induction false} RunIsFifo(tr: seq<State>, acts: seq<Act>, n: nat, size: nat, i: nat)
    requires Run(tr, acts, n, size) && i <= |acts|
    ensures Enqueued(Events(tr, acts, i)) == Dequeued(Events(tr, acts, i)) + Abs(tr[i])
    ensures tr[i].vals == [0] + Enqueued(Events(tr, acts, i))
  {
    hide Inv, Do, EventOf, Abs, Shape, Harmless, FifoStep, Given, Taken;
    if i == 0 {
      assert Abs(Init(n, size)) == [] && Init(n, size).vals == [0] by { AbsInit(n, size); }
    } else {
      RunIsFifo(tr, acts, n, size, i - 1);
      RunKeeps(tr, acts, n, size, i - 1);
      StepIsFifo(tr[i - 1], acts[i - 1]);
      FifoAccounts(Events(tr, acts, i - 1), Abs(tr[i - 1]), EventOf(tr[i - 1], acts[i - 1]), Abs(tr[i]));
    }
  }

  lemma AbsInit(n: nat, size: nat)
    ensures Abs(Init(n, size)) == [] && Init(n, size).vals == [0]
  {
  }

  predicate SaysEmpty(pc: Pc) {
    pc.PopEmpty? || (pc.PopCheck? && pc.sawEmpty)
  }

  lemma EmptySource(s: State, a: Act)
    requires Shape(s) && Allowed(s, a) && SaysEmpty(Do(s, a).th[a.tid])
    ensures var pc, pc' := s.th[a.tid], Do(s, a).th[a.tid];
      || (pc.PopLoadRear? && s.F == s.R + 1)
      || ((pc.PopCheck? || pc.PopFinCas?) && pc' == PopEmpty(pc.PopCheck? && pc.sawEmpty))
  {
  }

  lemma SameThreads(s: State, a: Act)
    requires Shape(s) && Allowed(s, a)
    ensures |Do(s, a).th| == |s.th|
  {
  }

  lemma OthersStay(s: State, a: Act, u: nat)
    requires Shape(s) && Allowed(s, a) && u < |s.th|
    ensures |Do(s, a).th| == |s.th| && (u != a.tid ==> Do(s, a).th[u] == s.th[u])
  {
  }

  lemma EmptyFlag(s: State, t: nat)
    requires Inv(s) && t < |s.th|
    ensures s.th[t].PopEmpty? ==> s.th[t].sawEmpty
  {
  }

  lemma BecomesEmpty(s: State, a: Act, t: nat)
    requires Inv(s) && Shape(s) && Allowed(s, a) && t < |s.th| && Inv(Do(s, a)) && SaysEmpty(Do(s, a).th[t])
    ensures !s.th[t].Idle? && (SaysEmpty(s.th[t]) || Abs(s) == [])
  {
    assert |s.vals| == s.R + 1;
    hide Do, Inv, Shape, Allowed;
    OthersStay(s, a, t);
    EmptyFlag(Do(s, a), t);
    if a.tid == t { EmptySource(s, a); }
  }

  // A pop that returns "empty" saw the queue empty at a moment of the same call.
  lemma {:induction false} EmptyIsTruthful(tr: seq<State>, acts: seq<Act>, n: nat, size: nat, i: nat, t: nat)
    returns (m: nat)
    requires Run(tr, acts, n, size) && i < |tr| && t < |tr[i].th| && SaysEmpty(tr[i].th[t])
    ensures m <= i && Abs(tr[m]) == []
    ensures forall q :: m <= q <= i ==> t < |tr[q].th| && !tr[q].th[t].Idle?
  {
    hide Inv, Do, Shape, Harmless, Abs, Allowed;
    assert i > 0;
    RunKeeps(tr, acts, n, size, i);
    RunKeeps(tr, acts, n, size, i - 1);
    SameThreads(tr[i - 1], acts[i - 1]);
    BecomesEmpty(tr[i - 1], acts[i - 1], t);
    if SaysEmpty(tr[i - 1].th[t]) {
      m := EmptyIsTruthful(tr, acts, n, size, i - 1, t);
    } else {
      m := i - 1;
    }
  }

  // --- calls -------------------------------------------------------------------------------------------

  function CallOf(c: Choice): Call {
    if c.Push? then Put(c.v) else Take
  }

  // What the pop of a thread returns if its next step ends it.
  function Returning(pc: Pc): Option<int> {
    if pc.PopCas? then Some(pc.ret) else None
  }

  // Thread t starts a call with step i and is in it until state j.
  ghost predicate InCall(tr: seq<State>, acts: seq<Act>, t: nat, i: nat, j: nat) {
    && i < j <= |acts| < |tr| && acts[i].tid == t && t < |tr[i].th| && tr[i].th[t].Idle?
    && forall m :: i < m < j ==> t < |tr[m].th| && !tr[m].th[t].Idle?
  }

  // The operations that thread t performed in steps i up to j.
  function EffectsOf(tr: seq<State>, acts: seq<Act>, t: nat, i: nat, j: nat): seq<Event>
    requires i <= j <= |acts| < |tr| && forall m :: i <= m < j ==> Shape(tr[m]) && Allowed(tr[m], acts[m])
    decreases j - i
  {
    if i == j then [] else
    EffectsOf(tr, acts, t, i, j - 1) + if acts[j - 1].tid == t then Effect(EventOf(tr[j - 1], acts[j - 1])) else []
  }

  predicate InPush(pc: Pc) {
    || pc.PushLoadRear? || pc.PushLoadFront? || pc.PushCheck? || pc.PushFinLoad? || pc.PushFinCas? || pc.PushLoadCtr? || pc.PushCas?
  }

  // A call under way has done nothing yet, and a push still has its argument.
  predicate CallAt(pc: Pc, c: Call) {
    match c
    case Put(v) => InPush(pc) && v == if pc.PushCas? then pc.next.value else pc.v
    case Take => !pc.Idle? && !InPush(pc)
  }

  lemma CallStarts(s: State, a: Act)
    requires Shape(s) && Allowed(s, a) && s.th[a.tid].Idle?
    ensures CallAt(Do(s, a).th[a.tid], CallOf(a.choice)) && Effect(EventOf(s, a)) == []
  {
  }

  // The step that ends a call is the one that does what was asked for; no other has an effect.
  lemma CallAdvances(s: State, a: Act, c: Call)
    requires Shape(s) && Allowed(s, a) && CallAt(s.th[a.tid], c)
    ensures var pc, pc', es := s.th[a.tid], Do(s, a).th[a.tid], Effect(EventOf(s, a));
      if pc'.Idle? then Served(c, es, Returning(pc)) && (c.Take? && !pc.PopCas? ==> SaysEmpty(pc))
      else CallAt(pc', c) && es == []
  {
  }

  lemma {:induction false} CallHistory(tr: seq<State>, acts: seq<Act>, n: nat, size: nat, t: nat, i: nat, j: nat)
    requires AnyRun(tr, acts, n, size) && InCall(tr, acts, t, i, j)
    ensures t < |tr[j].th|
    ensures var c, es := CallOf(acts[i].choice), EffectsOf(tr, acts, t, i, j);
      if tr[j].th[t].Idle? then
        && acts[j - 1].tid == t && Served(c, es, Returning(tr[j - 1].th[t]))
        && (c.Take? && !tr[j - 1].th[t].PopCas? ==> SaysEmpty(tr[j - 1].th[t]))
      else CallAt(tr[j].th[t], c) && es == []
  {
    hide Do, Shape, Allowed, EventOf, CallAt, Served, Init, SaysEmpty, Returning, CallOf, Effect;
    var c, s, a := CallOf(acts[i].choice), tr[j - 1], acts[j - 1];
    if i + 1 == j {
      assert EffectsOf(tr, acts, t, i, i) == [];
      OthersStay(s, a, t);
      CallStarts(s, a);
      CallIsBusy(tr[j].th[t], c);
      assert EffectsOf(tr, acts, t, i, j) == [];
    } else {
      CallHistory(tr, acts, n, size, t, i, j - 1);
      OthersStay(s, a, t);
      if a.tid == t {
        CallAdvances(s, a, c);
        assert EffectsOf(tr, acts, t, i, j) == [] + Effect(EventOf(s, a)) == Effect(EventOf(s, a));
      } else {
        assert EffectsOf(tr, acts, t, i, j) == [];
      }
    }
  }

  lemma CallIsBusy(pc: Pc, c: Call)
    requires CallAt(pc, c)
    ensures !pc.Idle?
  {
  }

  // Every call that is over did what it was asked for, once: a push has enqueued its argument, a pop has
  // dequeued the value it returns or, if it returns none, nothing.  Slot writes need not be harmless.
  lemma CallsAreServed(tr: seq<State>, acts: seq<Act>, n: nat, size: nat, t: nat, i: nat, j: nat)
    requires AnyRun(tr, acts, n, size) && InCall(tr, acts, t, i, j) && t < |tr[j].th| && tr[j].th[t].Idle?
    ensures Served(CallOf(acts[i].choice), EffectsOf(tr, acts, t, i, j), Returning(tr[j - 1].th[t]))
  {
    hide Do, Shape, Allowed, EventOf, Served, Init;
    CallHistory(tr, acts, n, size, t, i, j);
  }

  // A pop that returns none saw the queue empty at a moment of its call.
  lemma PopsNothingWhenEmpty(tr: seq<State>, acts: seq<Act>, n: nat, size: nat, t: nat, i: nat, j: nat) returns (m: nat)
    requires Run(tr, acts, n, size) && InCall(tr, acts, t, i, j) && t < |tr[j].th| && tr[j].th[t].Idle?
    requires acts[i].choice.Pop? && Returning(tr[j - 1].th[t]) == None
    ensures i < m < j && Abs(tr[m]) == []
  {
    hide Do, Shape, Allowed, EventOf, Served, Init, SaysEmpty, Harmless, Abs;
    CallHistory(tr, acts, n, size, t, i, j);
    m := EmptyIsTruthful(tr, acts, n, size, j - 1, t);
    assert !(m <= i <= j - 1);
  }

  // ---------------------------------------------------------------------------------------
  // Stale slot writes
  // ---------------------------------------------------------------------------------------

  // A slot write keeps every queued element, the last one included, in its slot if it was there,
  // exactly if it is fresh, or changes nothing, or hits a slot that holds no queued element.
  lemma WriteKeepsElementsIff(s: State, a: Act)
    requires Inv(s) && Shape(s) && Allowed(s, a) && WritesSlot(s, a)
    ensures Core(Do(s, a))
    ensures (forall q :: s.F <= q <= s.R && InSlot(s, q) ==> InSlot(Do(s, a), q)) <==>
            FreshWrite(s, a) || forall q :: s.F <= q <= s.R && InSlot(s, q) ==> Slot(q, s.size) != s.th[a.tid].r.index
  {
    var pc, s' := s.th[a.tid], Do(s, a);
    if FreshWrite(s, a) {
      FreshKeepsElements(s, a);
    } else {
      StaleWrites(s, a);
      hide Slot, Lap, Ring, PcInv, Do, FreshWrite, WritesSlot;
      forall q: nat | s.F <= q <= s.R && InSlot(s, q) ensures InSlot(s', q) <==> Slot(q, s.size) != pc.r.index {
        assert At(s, q) == Finished(s, q) && Finished(s', q) == Finished(s, q);
      }
    }
  }

  lemma FreshKeepsElements(s: State, a: Act)
    requires Inv(s) && Shape(s) && Allowed(s, a) && WritesSlot(s, a) && FreshWrite(s, a)
    ensures Core(Do(s, a)) && forall q :: s.F <= q <= s.R && InSlot(s, q) ==> InSlot(Do(s, a), q)
  {
    var k, s' := s.th[a.tid].k, Do(s, a);
    assert PcInv(s, s.th[a.tid]) && Core(s);
    SlotPeriod(k, s.size);
    SlotWrite(s, k, s');
  }

  // --- threads running alone, with no hypothesis on their slot writes ---------------------------

  predicate Leads(s: State, acts: seq<Act>, end: State)
    decreases |acts|
  {
    if acts == [] then end == s
    else Shape(s) && Allowed(s, acts[0]) && Leads(Do(s, acts[0]), acts[1..], end)
  }

  ghost predicate Reaches(s: State, end: State) {
    exists acts :: Leads(s, acts, end)
  }

  lemma {:induction false} Longer(s: State, acts: seq<Act>, m: State, a: Act)
    requires Leads(s, acts, m) && Shape(m) && Allowed(m, a)
    ensures Leads(s, acts + [a], Do(m, a))
    decreases |acts|
  {
    hide Do, Shape, Allowed;
    if acts == [] {
      assert (acts + [a])[1..] == [] && Leads(Do(m, a), [], Do(m, a));
    } else {
      Longer(Do(s, acts[0]), acts[1..], m, a);
      assert (acts + [a])[1..] == acts[1..] + [a];
    }
  }

  lemma StepShape(s: State, a: Act)
    requires Shape(s) && Allowed(s, a)
    ensures Shape(Do(s, a))
  {
    OwnInRange(s, a);
    FieldsInRange(s, a);
    forall u | 0 <= u < |s.th| ensures SnapshotsInRange(Do(s, a).th[u], s.size) {
      OthersStay(s, a, u);
    }
    hide Do, SnapshotsInRange, Allowed;
    OthersStay(s, a, a.tid);
  }

  lemma OwnInRange(s: State, a: Act)
    requires Shape(s) && Allowed(s, a)
    ensures SnapshotsInRange(Do(s, a).th[a.tid], s.size)
  {
    assert SnapshotsInRange(s.th[a.tid], s.size);
    assert s.size > 0 && |s.nodes| == s.size && s.rear.index < s.size && s.front.index < s.size;
    hide Shape, Allowed;
  }

  lemma FieldsInRange(s: State, a: Act)
    requires Shape(s) && Allowed(s, a)
    ensures var s' := Do(s, a);
      s'.size == s.size && |s'.nodes| == s.size && s'.rear.index < s.size && s'.front.index < s.size
  {
    assert SnapshotsInRange(s.th[a.tid], s.size);
    hide Allowed;
  }

  // One more step of thread t, from point p in m to point q in e.
  lemma Next(s: State, m: State, t: nat, p: Pc, c: Choice, e: State, q: Pc)
    requires t < |m.th| && t < |e.th| && Reaches(s, Goto(m, t, p)) && Shape(Goto(m, t, p))
    requires Allowed(Goto(m, t, p), Act(t, c)) && Do(Goto(m, t, p), Act(t, c)) == Goto(e, t, q)
    ensures Reaches(s, Goto(e, t, q)) && Shape(Goto(e, t, q))
  {
    var g := Goto(m, t, p);
    hide Shape, Do, Goto, Allowed;
    var acts :| Leads(s, acts, g);
    Longer(s, acts, g, Act(t, c));
    StepShape(g, Act(t, c));
  }

  const GO := Continue(false)

  function FinishedNodes(s: State): seq<Node>
    requires Shape(s)
  {
    s.nodes[s.rear.index := Node(s.rear.value, s.rear.counter)]
  }

  function Pushed(s: State, v: int): State
    requires Shape(s)
  {
    var i := (s.rear.index + 1) % s.size;
    s.(nodes := FinishedNodes(s), rear := Rear(v, i, FinishedNodes(s)[i].counter + 1), vals := s.vals + [v], R := s.R + 1)
  }

  lemma SoloPushLoads(s0: State, s: State, t: nat, v: int)
    requires Reaches(s0, s) && Shape(s) && t < |s.th| && !s.aborted && s.th[t].Idle?
    ensures var s' := Goto(s, t, PushFinLoad(v, s.rear, s.R, s.front, s.F)); Reaches(s0, s') && Shape(s')
  {
    var r, k, f, j := s.rear, s.R, s.front, s.F;
    hide Reaches, Shape;
    assert Goto(s, t, Idle) == s;
    Next(s0, s, t, Idle, Choice.Push(v), s, PushLoadRear(v));
    Next(s0, s, t, PushLoadRear(v), GO, s, PushLoadFront(v, r, k));
    Next(s0, s, t, PushLoadFront(v, r, k), GO, s, PushCheck(v, r, k, f, j));
    Next(s0, s, t, PushCheck(v, r, k, f, j), GO, s, PushFinLoad(v, r, k, f, j));
  }

  // The loop of finish_enqueue stops at its second attempt at the latest.
  lemma SoloPushFinish(s0: State, s: State, t: nat, v: int)
    requires Reaches(s0, s) && Shape(s) && t < |s.th| && !s.aborted && s.th[t].Idle?
    requires s.front.index != (s.rear.index + 2) % s.size
    ensures var s' := Goto(s.(nodes := FinishedNodes(s)), t, PushLoadCtr(v, s.rear, s.R, s.front, s.F));
      Reaches(s0, s') && Shape(s')
  {
    var r, k, f, j := s.rear, s.R, s.front, s.F;
    var guess, found := Node(s.nodes[r.index].value, Before(r.counter)), s.nodes[r.index];
    var done := s.(nodes := FinishedNodes(s));
    SoloPushLoads(s0, s, t, v);
    assert |s.nodes| == s.size >= 2 && r.index < s.size;
    hide Reaches, Shape;
    Next(s0, s, t, PushFinLoad(v, r, k, f, j), GO, s, PushFinCas(v, r, k, f, j, guess));
    if guess != found {
      Next(s0, s, t, PushFinCas(v, r, k, f, j, guess), GO, s, PushFinCas(v, r, k, f, j, found));
    }
    Next(s0, s, t, PushFinCas(v, r, k, f, j, found), GO, done, PushLoadCtr(v, r, k, f, j));
  }

  // A push that runs alone finishes, unless the queue is full.
  lemma SoloPush(s0: State, s: State, t: nat, v: int)
    requires Reaches(s0, s) && Shape(s) && t < |s.th| && !s.aborted && s.th[t].Idle?
    requires s.front.index != (s.rear.index + 2) % s.size
    ensures Reaches(s0, Pushed(s, v)) && Shape(Pushed(s, v))
  {
    var r, k, f, j, i := s.rear, s.R, s.front, s.F, (s.rear.index + 1) % s.size;
    var done := s.(nodes := FinishedNodes(s));
    SoloPushFinish(s0, s, t, v);
    var next := Rear(v, i, done.nodes[i].counter + 1);
    hide Reaches, Shape, FinishedNodes;
    Next(s0, done, t, PushLoadCtr(v, r, k, f, j), GO, done, PushCas(r, k, f, j, next));
    Next(s0, done, t, PushCas(r, k, f, j, next), GO, Pushed(s, v), Idle);
    assert Goto(Pushed(s, v), t, Idle) == Pushed(s, v);
  }

  lemma SoloPopLoads(s0: State, s: State, t: nat)
    requires Reaches(s0, s) && Shape(s) && t < |s.th| && !s.aborted && s.th[t].Idle?
    ensures var s' := Goto(s, t, PopCheck(s.front, s.F, s.rear, s.R, s.F == s.R + 1)); Reaches(s0, s') && Shape(s')
  {
    hide Reaches, Shape;
    assert Goto(s, t, Idle) == s;
    Next(s0, s, t, Idle, Choice.Pop, s, PopLoadFront);
    Next(s0, s, t, PopLoadFront, GO, s, PopLoadRear(s.front, s.F));
    Next(s0, s, t, PopLoadRear(s.front, s.F), GO, s, PopCheck(s.front, s.F, s.rear, s.R, s.F == s.R + 1));
  }

  // A pop that runs alone on a queue of one element, up to its read of the slot; and to its end.
  lemma SoloPopRead(s0: State, s: State, t: nat)
    requires Reaches(s0, s) && Shape(s) && t < |s.th| && !s.aborted && s.th[t].Idle?
    requires s.front.index == s.rear.index
    ensures var s' := Goto(s.(nodes := FinishedNodes(s)), t, PopRead(s.front, s.F)); Reaches(s0, s') && Shape(s')
  {
    var r, k, f, j := s.rear, s.R, s.front, s.F;
    var guess, found := Node(s.nodes[r.index].value, Before(r.counter)), s.nodes[r.index];
    var done := s.(nodes := FinishedNodes(s));
    SoloPopLoads(s0, s, t);
    NextSlotDiffers(r.index, s.size);
    assert |s.nodes| == s.size >= 2 && r.index < s.size;
    hide Reaches, Shape;
    Next(s0, s, t, PopCheck(f, j, r, k, s.F == s.R + 1), GO, s, PopFinLoad(f, j, r, k));
    Next(s0, s, t, PopFinLoad(f, j, r, k), GO, s, PopFinCas(f, j, r, k, guess));
    if guess != found {
      Next(s0, s, t, PopFinCas(f, j, r, k, guess), GO, s, PopFinCas(f, j, r, k, found));
    }
    Next(s0, s, t, PopFinCas(f, j, r, k, found), GO, done, PopRead(f, j));
  }

  lemma NextSlotDiffers(i: nat, n: nat)
    requires i < n && n >= 2
    ensures (i + 1) % n != i
  {
  }

  function Popped(s: State): State
    requires Shape(s)
  {
    s.(nodes := FinishedNodes(s), front := Front((s.front.index + 1) % s.size, s.front.counter + 1), F := s.F + 1)
  }

  lemma SoloPop(s0: State, s: State, t: nat)
    requires Reaches(s0, s) && Shape(s) && t < |s.th| && !s.aborted && s.th[t].Idle?
    requires s.front.index == s.rear.index
    ensures Reaches(s0, Popped(s)) && Shape(Popped(s))
  {
    var f, j, done := s.front, s.F, s.(nodes := FinishedNodes(s));
    SoloPopRead(s0, s, t);
    hide Reaches;
    Next(s0, done, t, PopRead(f, j), GO, done, PopCas(f, j, done.nodes[f.index].value));
    Next(s0, done, t, PopCas(f, j, done.nodes[f.index].value), GO, Popped(s), Idle);
    assert Goto(Popped(s), t, Idle) == Popped(s);
  }

  // Thread 0 stalled in its first finish_enqueue, having seen ticket 0.
  const STALLED := PushFinCas(10, Rear(0, 0, 0), 0, Front(1, 0), 1, Node(0, 0xFFFF_FFFF))

  function Ring2(rear: Rear, front: Front, n0: Node, n1: Node, p: Pc, q: Pc, vals: seq<int>, R: nat, F: nat): State {
    State(2, rear, front, [n0, n1], [p, q], false, vals, R, F)
  }

  lemma Stalls() returns (s: State)
    ensures s == Ring2(Rear(0, 0, 0), Front(1, 0), Node(0, 0), Node(0, 0), STALLED, Idle, [0], 0, 1)
    ensures Reaches(Init(2, 2), s) && Shape(s)
  {
    var i, r, f := Init(2, 2), Rear(0, 0, 0), Front(1, 0);
    assert Leads(i, [], i);
    assert Goto(i, 0, Idle) == i;
    SoloPushLoads(i, i, 0, 10);
    hide Reaches, Shape;
    Next(i, i, 0, PushFinLoad(10, r, 0, f, 1), GO, i, STALLED);
    s := Goto(i, 0, STALLED);
  }

  // Thread 1 pushes 20 and pops it.
  lemma OtherPushPop() returns (s: State)
    ensures s == Ring2(Rear(20, 1, 1), Front(0, 1), Node(0, 0), Node(20, 1), STALLED, Idle, [0, 20], 1, 2)
    ensures Reaches(Init(2, 2), s) && Shape(s)
  {
    var i := Init(2, 2);
    var s0 := Stalls();
    hide Reaches;
    SoloPush(i, s0, 1, 20);
    var s1 := Ring2(Rear(20, 1, 1), Front(1, 0), Node(0, 0), Node(0, 0), STALLED, Idle, [0, 20], 1, 1);
    assert Pushed(s0, 20) == s1;
    SoloPop(i, s1, 1);
    s := Ring2(Rear(20, 1, 1), Front(0, 1), Node(0, 0), Node(20, 1), STALLED, Idle, [0, 20], 1, 2);
    assert Popped(s1) == s;
  }

  // Thread 1 pushes 30 and starts to pop it.
  lemma OthersRun() returns (s: State)
    ensures s == Ring2(Rear(30, 0, 1), Front(0, 1), Node(30, 1), Node(20, 1), STALLED, PopRead(Front(0, 1), 2), [0, 20, 30], 2, 2)
    ensures Reaches(Init(2, 2), s) && Shape(s)
  {
    var i := Init(2, 2);
    var s2 := OtherPushPop();
    hide Reaches;
    SoloPush(i, s2, 1, 30);
    var s3 := Ring2(Rear(30, 0, 1), Front(0, 1), Node(0, 0), Node(20, 1), STALLED, Idle, [0, 20, 30], 2, 2);
    assert Pushed(s2, 30) == s3;
    SoloPopRead(i, s3, 1);
    s := Ring2(Rear(30, 0, 1), Front(0, 1), Node(30, 1), Node(20, 1), STALLED, PopRead(Front(0, 1), 2), [0, 20, 30], 2, 2);
    assert Goto(s3.(nodes := FinishedNodes(s3)), 1, PopRead(s3.front, s3.F)) == s;
  }

  // The state in which thread 0 is about to complete its write over the slot of 30, which thread 1
  // is about to read.
  const BEFORE := Ring2(Rear(30, 0, 1), Front(0, 1), Node(30, 1), Node(20, 1),
                        PushFinCas(10, Rear(0, 0, 0), 0, Front(1, 0), 1, Node(30, 1)), PopRead(Front(0, 1), 2), [0, 20, 30], 2, 2)

  lemma Tickets2()
    ensures Slot(0, 2) == 0 && Slot(1, 2) == 1 && Slot(2, 2) == 0 && Lap(0, 2) == 0 && Lap(1, 2) == 1 && Lap(2, 2) == 1
  {
  }

  lemma BeforeInv()
    ensures Inv(BEFORE) && Shape(BEFORE)
  {
    Tickets2();
    hide Slot, Lap;
  }

  lemma DoStale() returns (x: State)
    ensures Shape(BEFORE) && Do(BEFORE, Act(0, GO)) == x && Shape(x)
    ensures x == Ring2(Rear(30, 0, 1), Front(0, 1), Node(0, 0), Node(20, 1),
                       PushLoadCtr(10, Rear(0, 0, 0), 0, Front(1, 0), 1), PopRead(Front(0, 1), 2), [0, 20, 30], 2, 2)
    ensures Allowed(x, Act(1, GO)) && Do(x, Act(1, GO)) == Goto(x, 1, PopCas(Front(0, 1), 2, 0))
  {
    x := Do(BEFORE, Act(0, GO));
  }

  lemma BeforeBreaks()
    ensures Inv(BEFORE) && Shape(BEFORE) && Allowed(BEFORE, Act(0, GO)) && WritesSlot(BEFORE, Act(0, GO))
    ensures !Harmless(BEFORE, Act(0, GO)) && BEFORE.F <= BEFORE.R && InSlot(BEFORE, BEFORE.R)
    ensures Core(Do(BEFORE, Act(0, GO))) && !InSlot(Do(BEFORE, Act(0, GO)), BEFORE.R)
  {
    BeforeInv();
    Tickets2();
    hide Slot, Lap, Inv, PcInv;
    assert NeedsLast(BEFORE, BEFORE.th[1]);
  }

  // An element is lost: thread 0 completes its slot write w, which is not harmless and takes the last
  // queued element out of its slot, and thread 1 pops 0 from a queue that holds exactly 30.
  lemma StaleWriteRun() returns (s: State, w: Act, s': State, a: Act)
    ensures Reaches(Init(2, 2), s) && Inv(s) && Shape(s) && Allowed(s, w) && WritesSlot(s, w) && !Harmless(s, w)
    ensures s.F <= s.R && InSlot(s, s.R) && Core(Do(s, w)) && !InSlot(Do(s, w), s.R)
    ensures Leads(Do(s, w), [Act(1, GO)], s') && Shape(s') && Allowed(s', a)
    ensures Abs(s') == [30] && EventOf(s', a) == Deq(0)
  {
    hide Reaches, Slot, Lap, Inv, Do, Harmless, WritesSlot, InSlot, Core, Leads;
    s, w, a := BEFORE, Act(0, GO), Act(1, GO);
    BeforeReached();
    BeforeBreaks();
    var x := DoStale();
    s' := Goto(x, 1, PopCas(Front(0, 1), 2, 0));
    OneStep(x, a);
  }

  lemma OneStep(s: State, a: Act)
    requires Shape(s) && Allowed(s, a)
    ensures Leads(s, [a], Do(s, a)) && Shape(Do(s, a))
  {
    hide Do;
    StepShape(s, a);
    assert [a][1..] == [];
  }

  lemma BeforeReached()
    ensures Reaches(Init(2, 2), BEFORE)
  {
    var i := Init(2, 2);
    var s0 := OthersRun();
    hide Reaches;
    assert Goto(s0, 0, STALLED) == s0;
    Next(i, s0, 0, STALLED, GO, s0, BEFORE.th[0]);
    assert Goto(s0, 0, BEFORE.th[0]) == BEFORE;
  }
}
