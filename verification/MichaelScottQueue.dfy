/**
 The Michael-Scott queue of the benchmark suite together with its hazard pointers, as a
 state machine with one step per atomic load, store or compare-and-swap of a thread.

 Addresses are reused: `delete` takes a node out of the heap and a later `new` may return the
 same address, so the comparisons of the code are exposed to ABA.  A step that dereferences
 (or deletes) an address outside the heap sets `fault`.

 Auxiliary state, never read by a step: the sequence of nodes ever linked (`hist`), of their
 values (`vals`), the positions of head and tail in it, each node's ticket and owner, the thread
 that unlinked each node (`taken`), and what completed dequeues returned (`out`).
 */
module MichaelScottQueue {

  import opened Common
  import opened Fifo

  type Addr = nat
  const NULL: Addr := 0

  datatype Owner = Private(tid: nat) | Linked | Unlinked(tid: nat) | Retired(tid: nat)

  datatype Node = Node(item: int, next: Addr, ticket: int, owner: Owner)

  // Program points; each carries the local variables that are still live.
  datatype Pc =
    | Idle
    | EnqLoadTail(node: Addr)
    | EnqPublish(node: Addr, ltail: Addr)
    | EnqCheck(node: Addr, ltail: Addr)
    | EnqLoadNext(node: Addr, ltail: Addr, k: nat)
    | EnqCasNext(node: Addr, ltail: Addr, k: nat)
    | EnqSwing(ltail: Addr, k: nat, lnext: Addr)
    | EnqHelp(node: Addr, ltail: Addr, k: nat, lnext: Addr)
    | EnqClear0
    | EnqClear1
    | DeqLoadHead
    | DeqPublish(lhead: Addr)
    | DeqReload(lhead: Addr)
    | DeqCheckHead(lhead: Addr)
    | DeqLoadTail(lhead: Addr, k: nat)
    | DeqLoadNext(lhead: Addr, k: nat, ltail: Addr, tk: nat)
    | DeqPublishNext(lhead: Addr, k: nat, ltail: Addr, tk: nat, lnext: Addr)
    | DeqReloadNext(lhead: Addr, k: nat, ltail: Addr, tk: nat, lnext: Addr)
    | DeqRecheck(lhead: Addr, k: nat, ltail: Addr, tk: nat, lnext: Addr, sawEmpty: bool)
    | DeqClearEmpty0(sawEmpty: bool)
    | DeqClearEmpty1(sawEmpty: bool)
    | DeqCasHead(lhead: Addr, k: nat, lnext: Addr)
    | DeqHelp(lhead: Addr, k: nat, lnext: Addr)
    | DeqRead(lhead: Addr, k: nat, lnext: Addr)
    | DeqClear0(lhead: Addr, k: nat, item: int)
    | DeqClear1(lhead: Addr, k: nat, item: int)
    | RetPush(lhead: Addr, k: nat, item: int)
    | RetScan(k: nat, item: int, i: nat, obj: Addr, p: nat)
    | RetDelete(k: nat, item: int, i: nat, obj: Addr)

  datatype State = State(
    heap: map<Addr, Node>, head: Addr, tail: Addr,
    hp: seq<Addr>,              // in scan order: slot 1 of thread t at 2t, slot 0 at 2t+1
    retired: seq<seq<Addr>>, th: seq<Pc>, fault: bool,
    hist: seq<Addr>, vals: seq<int>, hd: nat, tl: nat, taken: seq<nat>, out: map<nat, int>)

  datatype Choice = Enqueue(item: int, addr: Addr) | Dequeue | Continue

  datatype Act = Act(tid: nat, choice: Choice)

  function HeadSlot(t: nat): nat { 2 * t + 1 }   // kHpHead == kHpTail == 0
  function NextSlot(t: nat): nat { 2 * t }       // kHpNext == 1

  function Init(n: nat, sentinel: Addr): State {
    State(map[sentinel := Node(0, NULL, 0, Linked)], sentinel, sentinel,
          seq(2 * n, _ => NULL), seq(n, _ => []), seq(n, _ => Idle), false,
          [sentinel], [0], 0, 0, [], map[])
  }

  predicate Shape(s: State) {
    |s.hp| == 2 * |s.th| && |s.retired| == |s.th|
  }

  predicate Allowed(s: State, a: Act) {
    && a.tid < |s.th| && !s.fault
    && (s.th[a.tid].Idle? ==>
          || a.choice.Dequeue?
          || (a.choice.Enqueue? && a.choice.addr != NULL && a.choice.addr !in s.heap))
  }

  function Goto(s: State, t: nat, pc: Pc): State
    requires t < |s.th|
  {
    s.(th := s.th[t := pc])
  }

  // The address the next step of a thread dereferences or deletes, NULL if none.
  function Deref(pc: Pc): Addr {
    match pc
    case EnqLoadNext(_, ltail, _) => ltail
    case EnqCasNext(_, ltail, _) => ltail
    case DeqLoadNext(lhead, _, _, _) => lhead
    case DeqReloadNext(lhead, _, _, _, _) => lhead
    case DeqRead(_, _, lnext) => lnext
    case RetDelete(_, _, _, obj) => obj
    case _ => NULL
  }

  // Where the scan over the retired list goes after position i - 1.
  function ScanFrom(list: seq<Addr>, k: nat, item: int, i: nat): Pc {
    if i < |list| then RetScan(k, item, i, list[i], 0) else Idle
  }

  function Finish(s: State, t: nat, list: seq<Addr>, k: nat, item: int, i: nat): State
    requires t < |s.th|
  {
    var s' := Goto(s, t, ScanFrom(list, k, item, i));
    if i < |list| then s' else s'.(out := s.out[k := item])
  }

  predicate InEnqueue(pc: Pc) {
    HoldsNode(pc) || pc.EnqSwing? || pc.EnqClear0? || pc.EnqClear1?
  }

  predicate InRetire(pc: Pc) {
    pc.RetPush? || pc.RetScan? || pc.RetDelete?
  }

  // MichaelScottQueue::enqueue
  function DoEnqueue(s: State, t: nat): State
    requires Shape(s) && t < |s.th| && InEnqueue(s.th[t])
    requires Deref(s.th[t]) == NULL || Deref(s.th[t]) in s.heap
  {
    match s.th[t]
    case EnqLoadTail(node) => Goto(s, t, EnqPublish(node, s.tail))
    case EnqPublish(node, ltail) =>
      Goto(s, t, EnqCheck(node, ltail)).(hp := s.hp[HeadSlot(t) := ltail])
    case EnqCheck(node, ltail) =>
      Goto(s, t, if ltail == s.tail then EnqLoadNext(node, ltail, s.tl) else EnqLoadTail(node))
    case EnqLoadNext(node, ltail, k) =>
      if ltail == NULL then s.(fault := true)
      else if s.heap[ltail].next == NULL then Goto(s, t, EnqCasNext(node, ltail, k))
      else Goto(s, t, EnqHelp(node, ltail, k, s.heap[ltail].next))
    case EnqCasNext(node, ltail, k) =>
      if ltail == NULL || node !in s.heap then s.(fault := true)
      else if s.heap[ltail].next == NULL then
        Goto(s, t, EnqSwing(ltail, k, node))
        .(heap := s.heap[ltail := s.heap[ltail].(next := node)]
                        [node := s.heap[node].(ticket := |s.hist|, owner := Linked)],
          hist := s.hist + [node], vals := s.vals + [s.heap[node].item])
      else Goto(s, t, EnqLoadTail(node))
    case EnqSwing(ltail, k, lnext) =>
      var s' := Goto(s, t, EnqClear0);
      if s.tail == ltail then s'.(tail := lnext, tl := s.tl + 1) else s'
    case EnqHelp(node, ltail, k, lnext) =>
      var s' := Goto(s, t, EnqLoadTail(node));
      if s.tail == ltail then s'.(tail := lnext, tl := s.tl + 1) else s'
    case EnqClear0 => Goto(s, t, EnqClear1).(hp := s.hp[HeadSlot(t) := NULL])
    case EnqClear1 => Goto(s, t, Idle).(hp := s.hp[NextSlot(t) := NULL])
  }

  // MichaelScottQueue::dequeue, with HazardPointers::protect inlined
  function DoDequeue(s: State, t: nat): State
    requires Shape(s) && t < |s.th|
    requires !s.th[t].Idle? && !InEnqueue(s.th[t]) && !InRetire(s.th[t])
    requires Deref(s.th[t]) == NULL || Deref(s.th[t]) in s.heap
  {
    match s.th[t]
    case DeqLoadHead => Goto(s, t, DeqPublish(s.head))
    case DeqPublish(lhead) => Goto(s, t, DeqReload(lhead)).(hp := s.hp[HeadSlot(t) := lhead])
    case DeqReload(lhead) =>
      Goto(s, t, if s.head == lhead then DeqCheckHead(lhead) else DeqPublish(s.head))
    case DeqCheckHead(lhead) =>
      Goto(s, t, if s.head == lhead then DeqLoadTail(lhead, s.hd) else DeqLoadHead)
    case DeqLoadTail(lhead, k) => Goto(s, t, DeqLoadNext(lhead, k, s.tail, s.tl))
    case DeqLoadNext(lhead, k, ltail, tk) =>
      if lhead == NULL then s.(fault := true)
      else if s.heap[lhead].next == NULL then
        Goto(s, t, DeqRecheck(lhead, k, ltail, tk, NULL, s.hd + 1 == |s.hist|))
      else Goto(s, t, DeqPublishNext(lhead, k, ltail, tk, s.heap[lhead].next))
    case DeqPublishNext(lhead, k, ltail, tk, lnext) =>
      Goto(s, t, DeqReloadNext(lhead, k, ltail, tk, lnext)).(hp := s.hp[NextSlot(t) := lnext])
    case DeqReloadNext(lhead, k, ltail, tk, lnext) =>
      if lhead == NULL then s.(fault := true)
      else if s.heap[lhead].next == lnext then
        Goto(s, t, DeqRecheck(lhead, k, ltail, tk, lnext, s.hd + 1 == |s.hist|))
      else Goto(s, t, DeqPublishNext(lhead, k, ltail, tk, s.heap[lhead].next))
    case DeqRecheck(lhead, k, ltail, tk, lnext, sawEmpty) =>
      if lhead != s.head then Goto(s, t, DeqLoadHead)
      else if lnext == NULL then Goto(s, t, DeqClearEmpty0(sawEmpty))
      else if lhead != ltail then Goto(s, t, DeqCasHead(lhead, k, lnext))
      else Goto(s, t, DeqHelp(lhead, k, lnext))
    case DeqClearEmpty0(sawEmpty) =>
      Goto(s, t, DeqClearEmpty1(sawEmpty)).(hp := s.hp[HeadSlot(t) := NULL])
    case DeqClearEmpty1(_) => Goto(s, t, Idle).(hp := s.hp[NextSlot(t) := NULL])
    case DeqCasHead(lhead, k, lnext) =>
      if s.head != lhead then Goto(s, t, DeqLoadHead)
      else if lhead !in s.heap then s.(fault := true)
      else Goto(s, t, DeqRead(lhead, k, lnext))
           .(head := lnext, hd := s.hd + 1, taken := s.taken + [t],
             heap := s.heap[lhead := s.heap[lhead].(owner := Unlinked(t))])
    case DeqHelp(lhead, k, lnext) =>
      var s' := Goto(s, t, DeqLoadHead);
      if s.tail == lhead then s'.(tail := lnext, tl := s.tl + 1) else s'
    case DeqRead(lhead, k, lnext) =>
      if lnext == NULL then s.(fault := true)
      else Goto(s, t, DeqClear0(lhead, k, s.heap[lnext].item))
    case DeqClear0(lhead, k, item) =>
      Goto(s, t, DeqClear1(lhead, k, item)).(hp := s.hp[HeadSlot(t) := NULL])
    case DeqClear1(lhead, k, item) =>
      Goto(s, t, RetPush(lhead, k, item)).(hp := s.hp[NextSlot(t) := NULL])
  }

  // HazardPointers::retire
  function DoRetire(s: State, t: nat): State
    requires Shape(s) && t < |s.th| && InRetire(s.th[t])
  {
    match s.th[t]
    case RetPush(lhead, k, item) =>
      var list := s.retired[t] + [lhead];
      if lhead !in s.heap then s.(fault := true)
      else Finish(s, t, list, k, item, 0)
           .(retired := s.retired[t := list],
             heap := s.heap[lhead := s.heap[lhead].(owner := Retired(t))])
    case RetScan(k, item, i, obj, p) =>
      if p < |s.hp| && s.hp[p] == obj then Finish(s, t, s.retired[t], k, item, i + 1)
      else if p + 1 < |s.hp| then Goto(s, t, RetScan(k, item, i, obj, p + 1))
      else Goto(s, t, RetDelete(k, item, i, obj))
    case RetDelete(k, item, i, obj) =>
      if i >= |s.retired[t]| then s.(fault := true)
      else
        var list := s.retired[t][..i] + s.retired[t][i + 1..];
        Finish(s, t, list, k, item, i)
        .(retired := s.retired[t := list], heap := s.heap - {obj})
  }

  function Do(s: State, a: Act): State
    requires Shape(s) && Allowed(s, a)
  {
    var t, pc := a.tid, s.th[a.tid];
    if Deref(pc) != NULL && Deref(pc) !in s.heap then s.(fault := true)
    else if pc.Idle? then
      if a.choice.Dequeue? then Goto(s, t, DeqLoadHead)
      else Goto(s, t, EnqLoadTail(a.choice.addr))
           .(heap := s.heap[a.choice.addr := Node(a.choice.item, NULL, -1, Private(t))])
    else if InEnqueue(pc) then DoEnqueue(s, t)
    else if InRetire(pc) then DoRetire(s, t)
    else DoDequeue(s, t)
  }

  // ---------------------------------------------------------------------------------------
  // Invariant
  // ---------------------------------------------------------------------------------------

  // How many hazard slots a thread has already found not to hold `a` while deciding to delete it.
  function Progress(pc: Pc, a: Addr, slots: nat): nat {
    match pc
    case RetScan(_, _, _, obj, p) => if obj == a then p else 0
    case RetDelete(_, _, _, obj) => if obj == a then slots else 0
    case _ => 0
  }

  // A validated hazard pointer: slot p publishes the live node `a` of ticket k, and no scan that
  // could delete it has inspected the slot already.
  ghost predicate Guard(s: State, p: nat, a: Addr, k: nat) {
    && p < |s.hp| && s.hp[p] == a && a != NULL
    && a in s.heap && s.heap[a].ticket == k
    && (forall u :: 0 <= u < |s.th| ==> Progress(s.th[u], a, |s.hp|) <= p)
  }

  // Thread t owns the unlinked node of ticket k and is the one that took that ticket.
  predicate Took(s: State, t: nat, k: nat) {
    k < |s.taken| && s.taken[k] == t && k !in s.out
  }

  predicate Detached(s: State, t: nat, a: Addr, k: nat) {
    a in s.heap && s.heap[a].owner == Unlinked(t) && s.heap[a].ticket == k && Took(s, t, k)
  }

  predicate Fetched(s: State, t: nat, k: nat, item: int) {
    Took(s, t, k) && k + 1 < |s.vals| && item == s.vals[k + 1]
  }

  predicate Fresh(s: State, t: nat, node: Addr) {
    node in s.heap && s.heap[node].owner == Private(t)
  }

  predicate NextIs(s: State, a: Addr, b: Addr) {
    a in s.heap && s.heap[a].next == b
  }

  // What dequeue knows about the tail it read: it was not behind its head.
  predicate TailRead(s: State, lhead: Addr, k: nat, ltail: Addr, tk: nat) {
    k <= tk <= s.tl && (lhead == ltail <==> tk == k)
  }

  predicate HoldsNode(pc: Pc) {
    pc.EnqLoadTail? || pc.EnqPublish? || pc.EnqCheck? || pc.EnqLoadNext? || pc.EnqCasNext? || pc.EnqHelp?
  }

  predicate TailValidated(pc: Pc) {
    pc.EnqLoadNext? || pc.EnqCasNext? || pc.EnqSwing? || pc.EnqHelp?
  }

  predicate HeadValidated(pc: Pc) {
    || pc.DeqLoadTail? || pc.DeqLoadNext? || pc.DeqPublishNext? || pc.DeqReloadNext? || pc.DeqRecheck?
    || pc.DeqCasHead? || pc.DeqHelp?
  }

  predicate NextValidated(pc: Pc) {
    pc.DeqCasHead? || pc.DeqRead?
  }

  predicate NextLoaded(pc: Pc) {
    || pc.DeqPublishNext? || pc.DeqReloadNext? || (pc.DeqRecheck? && pc.lnext != NULL)
    || pc.DeqCasHead? || pc.DeqHelp?
  }

  predicate TailLoaded(pc: Pc) {
    pc.DeqLoadNext? || pc.DeqPublishNext? || pc.DeqReloadNext? || pc.DeqRecheck?
  }

  predicate HoldsDetached(pc: Pc) {
    pc.DeqRead? || pc.DeqClear0? || pc.DeqClear1? || pc.RetPush?
  }

  predicate HasItem(pc: Pc) {
    pc.DeqClear0? || pc.DeqClear1? || pc.RetPush? || pc.RetScan? || pc.RetDelete?
  }

  ghost predicate Guards(s: State, t: nat, pc: Pc) {
    && (TailValidated(pc) ==> Guard(s, HeadSlot(t), pc.ltail, pc.k))
    && (HeadValidated(pc) ==> Guard(s, HeadSlot(t), pc.lhead, pc.k))
    && (NextValidated(pc) ==> Guard(s, NextSlot(t), pc.lnext, pc.k + 1))
  }

  predicate Published(s: State, t: nat, pc: Pc)
    requires Shape(s) && t < |s.th|
  {
    && (pc.EnqCheck? ==> s.hp[HeadSlot(t)] == pc.ltail)
    && (pc.DeqReload? || pc.DeqCheckHead? ==> s.hp[HeadSlot(t)] == pc.lhead)
    && (pc.DeqReloadNext? || (pc.DeqRecheck? && pc.lnext != NULL) ==> s.hp[NextSlot(t)] == pc.lnext)
  }

  predicate Owns(s: State, t: nat, pc: Pc) {
    && (HoldsNode(pc) ==> Fresh(s, t, pc.node))
    && (HoldsDetached(pc) ==> Detached(s, t, pc.lhead, pc.k))
    && (HasItem(pc) ==> Fetched(s, t, pc.k, pc.item))
  }

  predicate Links(s: State, pc: Pc) {
    && (pc.EnqSwing? || pc.EnqHelp? ==> pc.lnext != NULL && NextIs(s, pc.ltail, pc.lnext))
    && (NextLoaded(pc) ==> pc.lnext != NULL && NextIs(s, pc.lhead, pc.lnext))
  }

  predicate Positions(s: State, pc: Pc) {
    && (pc.EnqLoadNext? || pc.EnqCasNext? ==> pc.k <= s.tl)
    && (pc.DeqLoadTail? || TailLoaded(pc) ==> pc.k <= s.hd)
    && (TailLoaded(pc) ==> TailRead(s, pc.lhead, pc.k, pc.ltail, pc.tk))
    && (pc.DeqCasHead? ==> pc.k < s.tl)
    && (pc.DeqRecheck? && pc.lnext == NULL ==> pc.sawEmpty)
    && (pc.DeqClearEmpty0? || pc.DeqClearEmpty1? ==> pc.sawEmpty)
  }

  predicate Scanning(s: State, t: nat, pc: Pc)
    requires Shape(s) && t < |s.th|
  {
    && (pc.RetScan? ==> pc.p < |s.hp|)
    && (pc.RetScan? || pc.RetDelete? ==> pc.i < |s.retired[t]| && s.retired[t][pc.i] == pc.obj)
  }

  ghost predicate PcAt(s: State, t: nat, pc: Pc)
    requires Shape(s) && t < |s.th|
  {
    && Guards(s, t, pc) && Published(s, t, pc) && Owns(s, t, pc)
    && Links(s, pc) && Positions(s, pc) && Scanning(s, t, pc)
  }

  ghost predicate PcInv(s: State, t: nat)
    requires Shape(s) && t < |s.th|
  {
    PcAt(s, t, s.th[t])
  }

  ghost predicate RetiredInv(s: State, t: nat)
    requires Shape(s) && t < |s.th|
  {
    var r := s.retired[t];
    && (forall i :: 0 <= i < |r| ==> r[i] in s.heap && s.heap[r[i]].owner == Retired(t))
    && (forall i, j :: 0 <= i < j < |r| ==> r[i] != r[j])
  }

  predicate NodeInv(s: State, a: Addr, n: Node)
    requires s.hd <= |s.hist| == |s.vals|
  {
    && (match n.owner
        case Private(_) => n.ticket == -1 && n.next == NULL
        case Linked => s.hd <= n.ticket < |s.hist| && s.hist[n.ticket] == a
        case Unlinked(_) => 0 <= n.ticket < s.hd
        case Retired(_) => 0 <= n.ticket < s.hd)
    && (0 <= n.ticket < |s.hist| ==>
          && n.item == s.vals[n.ticket]
          && n.next == if n.ticket + 1 < |s.hist| then s.hist[n.ticket + 1] else NULL)
  }

  ghost predicate Spine(s: State) {
    && s.hd <= s.tl < |s.hist| == |s.vals| && |s.hist| <= s.tl + 2
    && |s.taken| == s.hd && NULL !in s.heap
    && s.head == s.hist[s.hd] && s.tail == s.hist[s.tl]
    && (forall i :: s.hd <= i < |s.hist| ==>
          s.hist[i] in s.heap && s.heap[s.hist[i]].ticket == i && s.heap[s.hist[i]].owner == Linked)
    && (forall i :: 0 <= i < |s.hist| ==> s.hist[i] != NULL)
    && (forall k :: k in s.out ==> k < s.hd && s.out[k] == s.vals[k + 1])
  }

  ghost predicate NodesInv(s: State)
    requires s.hd <= |s.hist| == |s.vals|
  {
    forall a {:trigger NodeInv(s, a, s.heap[a])} :: a in s.heap ==> NodeInv(s, a, s.heap[a])
  }

  ghost predicate ListInv(s: State) {
    Spine(s) && NodesInv(s)
  }

  ghost predicate ThreadInv(s: State, t: nat)
    requires Shape(s) && t < |s.th|
  {
    PcInv(s, t) && RetiredInv(s, t)
  }

  ghost predicate Inv(s: State) {
    && Shape(s) && !s.fault && ListInv(s)
    && (forall t :: 0 <= t < |s.th| ==> ThreadInv(s, t))
  }

  // ---------------------------------------------------------------------------------------
  // Interference: what a step of t may do to the facts another thread relies on
  // ---------------------------------------------------------------------------------------

  ghost predicate Evolves(s: State, s': State, t: nat)
    requires Shape(s) && t < |s.th|
  {
    && Shape(s') && |s'.th| == |s.th|
    && s.hd <= s'.hd && s.tl <= s'.tl && s.vals <= s'.vals && s.taken <= s'.taken
    && (forall u :: 0 <= u < |s.th| && u != t ==> s'.th[u] == s.th[u] && s'.retired[u] == s.retired[u])
    && (forall p :: 0 <= p < |s.hp| && p != HeadSlot(t) && p != NextSlot(t) ==> s'.hp[p] == s.hp[p])
    && (forall k :: k in s'.out && k !in s.out ==> Took(s, t, k))
    && (forall a :: a in s.heap && a in s'.heap ==>
          && (0 <= s.heap[a].ticket ==> s'.heap[a].ticket == s.heap[a].ticket)
          && (s.heap[a].next != NULL ==> s'.heap[a].next == s.heap[a].next)
          && (s'.heap[a].owner != s.heap[a].owner ==>
                s.heap[a].owner in {Private(t), Linked, Unlinked(t)}))
    && (forall a :: a in s.heap && a !in s'.heap ==>
          s.heap[a].owner == Retired(t) && Progress(s.th[t], a, |s.hp|) == |s.hp|)
    && (forall a, p :: 0 <= p < |s.hp| && s.hp[p] == a && Progress(s.th[t], a, |s.hp|) <= p ==>
          Progress(s'.th[t], a, |s.hp|) <= p)
  }

  lemma GuardStable(s: State, s': State, t: nat, p: nat, a: Addr, k: nat)
    requires Shape(s) && t < |s.th| && Evolves(s, s', t)
    requires Guard(s, p, a, k) && p != HeadSlot(t) && p != NextSlot(t)
    ensures Guard(s', p, a, k)
  {
    assert a in s'.heap by { assert Progress(s.th[t], a, |s.hp|) <= p; }
  }

  lemma RetiredStable(s: State, s': State, t: nat, u: nat)
    requires Shape(s) && t < |s.th| && Evolves(s, s', t)
    requires u < |s.th| && u != t && RetiredInv(s, u)
    ensures RetiredInv(s', u)
  {
  }

  lemma GuardsStable(s: State, s': State, t: nat, u: nat)
    requires Shape(s) && t < |s.th| && Evolves(s, s', t)
    requires u < |s.th| && u != t && Guards(s, u, s.th[u])
    ensures Guards(s', u, s.th[u])
  {
    hide Evolves, Guard;
    var pc := s.th[u];
    if TailValidated(pc) { GuardStable(s, s', t, HeadSlot(u), pc.ltail, pc.k); }
    if HeadValidated(pc) { GuardStable(s, s', t, HeadSlot(u), pc.lhead, pc.k); }
    if NextValidated(pc) { GuardStable(s, s', t, NextSlot(u), pc.lnext, pc.k + 1); }
  }

  lemma OwnsStable(s: State, s': State, t: nat, u: nat)
    requires Shape(s) && t < |s.th| && Evolves(s, s', t)
    requires u < |s.th| && u != t && Owns(s, u, s.th[u])
    ensures Owns(s', u, s.th[u])
  {
  }

  lemma LinksStable(s: State, s': State, t: nat, u: nat)
    requires Shape(s) && t < |s.th| && Evolves(s, s', t)
    requires u < |s.th| && Links(s, s.th[u]) && Guards(s', u, s.th[u])
    ensures Links(s', s.th[u])
  {
  }

  lemma OthersStable(s: State, s': State, t: nat, u: nat)
    requires Shape(s) && t < |s.th| && Evolves(s, s', t)
    requires u < |s.th| && u != t && PcInv(s, u)
    ensures PcInv(s', u)
  {
    hide Guards, Owns, Links;
    GuardsStable(s, s', t, u);
    OwnsStable(s, s', t, u);
    LinksStable(s, s', t, u);
  }

  lemma Conclude(s: State, s': State, t: nat)
    requires Inv(s) && t < |s.th| && Evolves(s, s', t)
    requires !s'.fault && ListInv(s') && ThreadInv(s', t)
    ensures Inv(s')
  {
    hide ListInv, Evolves;
    assert Shape(s') && |s'.th| == |s.th| by { EvolvesShape(s, s', t); }
    forall u | 0 <= u < |s.th| && u != t ensures ThreadInv(s', u) {
      hide PcInv, RetiredInv;
      assert ThreadInv(s, u);
      BothStable(s, s', t, u);
    }
  }

  lemma EvolvesShape(s: State, s': State, t: nat)
    requires Shape(s) && t < |s.th| && Evolves(s, s', t)
    ensures Shape(s') && |s'.th| == |s.th|
  {
  }

  lemma BothStable(s: State, s': State, t: nat, u: nat)
    requires Shape(s) && t < |s.th| && Evolves(s, s', t)
    requires u < |s.th| && u != t && ThreadInv(s, u)
    ensures ThreadInv(s', u)
  {
    OthersStable(s, s', t, u);
    RetiredStable(s, s', t, u);
  }

  // A node still in the list is being scanned by nobody.
  lemma LinkedUnscanned(s: State, a: Addr)
    requires Inv(s) && a in s.heap && s.heap[a].owner == Linked
    ensures Unscanned(s, a)
  {
    hide ListInv;
    forall u | 0 <= u < |s.th| ensures Progress(s.th[u], a, |s.hp|) == 0 {
      assert ThreadInv(s, u);
    }
  }

  ghost predicate Unscanned(s: State, a: Addr) {
    forall u :: 0 <= u < |s.th| ==> Progress(s.th[u], a, |s.hp|) == 0
  }

  // ---------------------------------------------------------------------------------------
  // Every step keeps the invariant
  // ---------------------------------------------------------------------------------------

  // A step that changes only the thread's own control state and hazard slots.
  predicate Quiet(s: State, s': State, t: nat)
    requires Shape(s) && t < |s.th|
  {
    && s' == s.(th := s'.th, hp := s'.hp)
    && |s'.th| == |s.th| && |s'.hp| == |s.hp|
    && (forall u :: 0 <= u < |s.th| && u != t ==> s'.th[u] == s.th[u])
    && (forall p :: 0 <= p < |s.hp| && p != HeadSlot(t) && p != NextSlot(t) ==> s'.hp[p] == s.hp[p])
    && !s'.th[t].RetScan? && !s'.th[t].RetDelete?
  }

  lemma QuietList(s: State, s': State, t: nat)
    requires Shape(s) && t < |s.th| && ListInv(s) && Quiet(s, s', t)
    ensures ListInv(s')
  {
    NodesIgnore(s, s');
    hide NodesInv;
  }

  lemma QuietEvolves(s: State, s': State, t: nat)
    requires Shape(s) && t < |s.th| && Quiet(s, s', t)
    ensures Evolves(s, s', t)
  {
  }

  lemma QuietKeeps(s: State, s': State, t: nat)
    requires Inv(s) && t < |s.th| && Quiet(s, s', t) && PcInv(s', t)
    ensures Inv(s')
  {
    QuietList(s, s', t);
    QuietEvolves(s, s', t);
    hide ListInv, PcInv, Evolves;
    assert ThreadInv(s, t);
    Conclude(s, s', t);
  }

  predicate Scans(pc: Pc) {
    pc.RetScan? || pc.RetDelete?
  }

  // Moving to a program point whose facts hold already.
  lemma MoveTo(s: State, t: nat, pc: Pc)
    requires Shape(s) && t < |s.th| && !Scans(s.th[t]) && !Scans(pc) && PcAt(s, t, pc)
    ensures var s' := Goto(s, t, pc); Quiet(s, s', t) && PcInv(s', t)
  {
    var s' := Goto(s, t, pc);
    forall a ensures Progress(s'.th[t], a, |s.hp|) == 0 {}
  }

  // Storing a hazard pointer on the way; no validated pointer of the new point is in that slot.
  lemma StoreAndMoveTo(s: State, t: nat, p: nat, v: Addr, pc: Pc)
    requires Shape(s) && t < |s.th| && !Scans(s.th[t]) && !Scans(pc)
    requires p == HeadSlot(t) || p == NextSlot(t)
    requires Published(s.(hp := s.hp[p := v]), t, pc)
    requires Guards(s, t, pc) && Owns(s, t, pc) && Links(s, pc) && Positions(s, pc)
    requires p == HeadSlot(t) ==> !TailValidated(pc) && !HeadValidated(pc)
    requires p == NextSlot(t) ==> !NextValidated(pc)
    ensures var s' := Goto(s, t, pc).(hp := s.hp[p := v]); Quiet(s, s', t) && PcInv(s', t)
  {
    var s' := Goto(s, t, pc).(hp := s.hp[p := v]);
    forall a ensures Progress(s'.th[t], a, |s.hp|) == 0 {}
  }

  lemma EnqueueLoads(s: State, a: Act)
    requires Shape(s) && Allowed(s, a) && PcInv(s, a.tid)
    requires s.th[a.tid].EnqLoadTail? || s.th[a.tid].EnqPublish? || s.th[a.tid].EnqLoadNext?
    ensures Quiet(s, Do(s, a), a.tid) && PcInv(Do(s, a), a.tid)
  {
    hide Quiet;
    var t, pc := a.tid, s.th[a.tid];
    if pc.EnqLoadTail? {
      MoveTo(s, t, EnqPublish(pc.node, s.tail));
    } else if pc.EnqPublish? {
      StoreAndMoveTo(s, t, HeadSlot(t), pc.ltail, EnqCheck(pc.node, pc.ltail));
    } else {
      var next := s.heap[pc.ltail].next;
      MoveTo(s, t, if next == NULL then EnqCasNext(pc.node, pc.ltail, pc.k)
                   else EnqHelp(pc.node, pc.ltail, pc.k, next));
    }
  }

  lemma EnqueueChecks(s: State, a: Act)
    requires Shape(s) && Allowed(s, a) && ListInv(s) && PcInv(s, a.tid)
    requires s.th[a.tid].EnqCheck? && Unscanned(s, s.tail)
    ensures Quiet(s, Do(s, a), a.tid) && PcInv(Do(s, a), a.tid)
  {
    hide NodeInv, Quiet;
    var t, pc := a.tid, s.th[a.tid];
    MoveTo(s, t, if pc.ltail == s.tail then EnqLoadNext(pc.node, pc.ltail, s.tl) else EnqLoadTail(pc.node));
  }

  lemma EnqueueClears(s: State, a: Act)
    requires Shape(s) && Allowed(s, a)
    requires s.th[a.tid].EnqClear0? || s.th[a.tid].EnqClear1?
    ensures Quiet(s, Do(s, a), a.tid) && PcInv(Do(s, a), a.tid)
  {
    hide Quiet;
    var t := a.tid;
    if s.th[t].EnqClear0? {
      StoreAndMoveTo(s, t, HeadSlot(t), NULL, EnqClear1);
    } else {
      StoreAndMoveTo(s, t, NextSlot(t), NULL, Idle);
    }
  }

  lemma DequeueProtectsHead(s: State, a: Act)
    requires Shape(s) && Allowed(s, a) && PcInv(s, a.tid)
    requires s.th[a.tid].DeqLoadHead? || s.th[a.tid].DeqPublish? || s.th[a.tid].DeqReload?
    ensures Quiet(s, Do(s, a), a.tid) && PcInv(Do(s, a), a.tid)
  {
    hide Quiet;
    var t, pc := a.tid, s.th[a.tid];
    if pc.DeqLoadHead? {
      MoveTo(s, t, DeqPublish(s.head));
    } else if pc.DeqPublish? {
      StoreAndMoveTo(s, t, HeadSlot(t), pc.lhead, DeqReload(pc.lhead));
    } else {
      MoveTo(s, t, if s.head == pc.lhead then DeqCheckHead(pc.lhead) else DeqPublish(s.head));
    }
  }

  lemma DequeueChecksHead(s: State, a: Act)
    requires Shape(s) && Allowed(s, a) && ListInv(s) && PcInv(s, a.tid)
    requires s.th[a.tid].DeqCheckHead? && Unscanned(s, s.head)
    ensures Quiet(s, Do(s, a), a.tid) && PcInv(Do(s, a), a.tid)
  {
    hide NodeInv, Quiet;
    var t, pc := a.tid, s.th[a.tid];
    MoveTo(s, t, if s.head == pc.lhead then DeqLoadTail(pc.lhead, s.hd) else DeqLoadHead);
  }

  // A live node not ahead of head is the tail node only if it carries the tail's ticket.
  lemma TailIsNotBehind(s: State, lhead: Addr, k: nat)
    requires ListInv(s) && lhead in s.heap && s.heap[lhead].ticket == k && k <= s.hd
    ensures TailRead(s, lhead, k, s.tail, s.tl)
  {
    assert NodeInv(s, lhead, s.heap[lhead]);
  }

  // Only the last node of the list has no successor.
  lemma NoSuccessorMeansEmpty(s: State, lhead: Addr, k: nat)
    requires ListInv(s) && lhead in s.heap && s.heap[lhead].ticket == k && k <= s.hd
    requires s.heap[lhead].next == NULL
    ensures s.hd + 1 == |s.hist|
  {
    assert NodeInv(s, lhead, s.heap[lhead]);
  }

  lemma DequeueLoads(s: State, a: Act)
    requires Shape(s) && Allowed(s, a) && ListInv(s) && PcInv(s, a.tid)
    requires s.th[a.tid].DeqLoadTail? || s.th[a.tid].DeqLoadNext?
    ensures Quiet(s, Do(s, a), a.tid) && PcInv(Do(s, a), a.tid)
  {
    hide ListInv, Quiet;
    var t, pc := a.tid, s.th[a.tid];
    if pc.DeqLoadTail? {
      TailIsNotBehind(s, pc.lhead, pc.k);
      MoveTo(s, t, DeqLoadNext(pc.lhead, pc.k, s.tail, s.tl));
    } else if s.heap[pc.lhead].next == NULL {
      NoSuccessorMeansEmpty(s, pc.lhead, pc.k);
      MoveTo(s, t, DeqRecheck(pc.lhead, pc.k, pc.ltail, pc.tk, NULL, true));
    } else {
      MoveTo(s, t, DeqPublishNext(pc.lhead, pc.k, pc.ltail, pc.tk, s.heap[pc.lhead].next));
    }
  }

  lemma DequeueProtectsNext(s: State, a: Act)
    requires Shape(s) && Allowed(s, a) && PcInv(s, a.tid)
    requires s.th[a.tid].DeqPublishNext? || s.th[a.tid].DeqReloadNext?
    ensures Quiet(s, Do(s, a), a.tid) && PcInv(Do(s, a), a.tid)
  {
    hide Quiet;
    var t, pc := a.tid, s.th[a.tid];
    if pc.DeqPublishNext? {
      StoreNext(s, t);
    } else {
      MoveTo(s, t, DeqRecheck(pc.lhead, pc.k, pc.ltail, pc.tk, pc.lnext, s.hd + 1 == |s.hist|));
    }
  }

  lemma StoreNext(s: State, t: nat)
    requires Shape(s) && t < |s.th| && PcInv(s, t) && s.th[t].DeqPublishNext?
    ensures var pc := s.th[t];
            var s' := Goto(s, t, DeqReloadNext(pc.lhead, pc.k, pc.ltail, pc.tk, pc.lnext))
                      .(hp := s.hp[NextSlot(t) := pc.lnext]);
            Quiet(s, s', t) && PcInv(s', t)
  {
    hide Quiet;
    var pc := s.th[t];
    StoreAndMoveTo(s, t, NextSlot(t), pc.lnext, DeqReloadNext(pc.lhead, pc.k, pc.ltail, pc.tk, pc.lnext));
  }

  // The second check of head: what was read from the successor field is the current successor.
  lemma RecheckMeaning(s: State, t: nat)
    requires Shape(s) && ListInv(s) && t < |s.th| && PcInv(s, t)
    requires s.th[t].DeqRecheck? && s.th[t].lhead == s.head && s.th[t].lnext != NULL
    ensures var pc := s.th[t];
            && pc.k == s.hd && s.hd + 1 < |s.hist| && pc.lnext == s.hist[s.hd + 1]
            && pc.lnext in s.heap && s.heap[pc.lnext].ticket == s.hd + 1 && s.heap[pc.lnext].owner == Linked
  {
    assert NodeInv(s, s.head, s.heap[s.head]);
  }

  lemma DequeueRechecks(s: State, a: Act)
    requires Shape(s) && Allowed(s, a) && ListInv(s) && PcInv(s, a.tid)
    requires var pc := s.th[a.tid];
             pc.DeqRecheck? && (pc.lhead == s.head && pc.lnext != NULL ==> Unscanned(s, pc.lnext))
    ensures Quiet(s, Do(s, a), a.tid) && PcInv(Do(s, a), a.tid)
  {
    hide ListInv, Quiet;
    var t, pc := a.tid, s.th[a.tid];
    if pc.lhead != s.head {
      MoveTo(s, t, DeqLoadHead);
    } else if pc.lnext == NULL {
      MoveTo(s, t, DeqClearEmpty0(pc.sawEmpty));
    } else {
      RecheckMeaning(s, t);
      CommitTo(s, t);
    }
  }

  lemma CommitTo(s: State, t: nat)
    requires Shape(s) && t < |s.th| && PcInv(s, t)
    requires var pc := s.th[t];
             && pc.DeqRecheck? && pc.lnext != NULL && Unscanned(s, pc.lnext)
             && pc.lnext in s.heap && s.heap[pc.lnext].ticket == pc.k + 1
    ensures var pc := s.th[t];
            var s' := Goto(s, t, if pc.lhead != pc.ltail then DeqCasHead(pc.lhead, pc.k, pc.lnext)
                                 else DeqHelp(pc.lhead, pc.k, pc.lnext));
            Quiet(s, s', t) && PcInv(s', t)
  {
    hide Quiet;
    var pc := s.th[t];
    if pc.lhead != pc.ltail {
      MoveTo(s, t, DeqCasHead(pc.lhead, pc.k, pc.lnext));
    } else {
      MoveTo(s, t, DeqHelp(pc.lhead, pc.k, pc.lnext));
    }
  }

  lemma DequeueClears(s: State, a: Act)
    requires Shape(s) && Allowed(s, a) && PcInv(s, a.tid)
    requires var pc := s.th[a.tid];
             pc.DeqClearEmpty0? || pc.DeqClearEmpty1? || pc.DeqClear0? || pc.DeqClear1?
    ensures Quiet(s, Do(s, a), a.tid) && PcInv(Do(s, a), a.tid)
  {
    hide Quiet;
    var t, pc := a.tid, s.th[a.tid];
    if pc.DeqClearEmpty0? {
      StoreAndMoveTo(s, t, HeadSlot(t), NULL, DeqClearEmpty1(pc.sawEmpty));
    } else if pc.DeqClearEmpty1? {
      StoreAndMoveTo(s, t, NextSlot(t), NULL, Idle);
    } else if pc.DeqClear0? {
      StoreAndMoveTo(s, t, HeadSlot(t), NULL, DeqClear1(pc.lhead, pc.k, pc.item));
    } else {
      StoreAndMoveTo(s, t, NextSlot(t), NULL, RetPush(pc.lhead, pc.k, pc.item));
    }
  }

  lemma TicketItem(s: State, a: Addr)
    requires ListInv(s) && a in s.heap && 0 <= s.heap[a].ticket
    ensures s.heap[a].ticket < |s.vals| && s.heap[a].item == s.vals[s.heap[a].ticket]
  {
    assert NodeInv(s, a, s.heap[a]);
  }

  lemma DequeueReadsItem(s: State, a: Act)
    requires Shape(s) && Allowed(s, a) && ListInv(s) && PcInv(s, a.tid)
    requires s.th[a.tid].DeqRead?
    ensures Quiet(s, Do(s, a), a.tid) && PcInv(Do(s, a), a.tid)
  {
    hide ListInv, Quiet;
    var t, pc := a.tid, s.th[a.tid];
    TicketItem(s, pc.lnext);
    MoveTo(s, t, DeqClear0(pc.lhead, pc.k, s.heap[pc.lnext].item));
  }

  // --- steps that change the list, the retired lists or the heap -------------------------

  function Allocated(s: State, t: nat, addr: Addr, item: int): State
    requires t < |s.th|
  {
    Goto(s, t, EnqLoadTail(addr)).(heap := s.heap[addr := Node(item, NULL, -1, Private(t))])
  }

  lemma AllocateList(s: State, t: nat, addr: Addr, item: int)
    requires t < |s.th| && ListInv(s) && addr != NULL && addr !in s.heap
    ensures ListInv(Allocated(s, t, addr, item))
  {
    var s' := Allocated(s, t, addr, item);
    forall b | b in s'.heap ensures NodeInv(s', b, s'.heap[b]) {
      assert b in s.heap ==> NodeInv(s, b, s.heap[b]);
    }
  }

  lemma AllocateThread(s: State, t: nat, addr: Addr, item: int)
    requires Shape(s) && t < |s.th| && addr !in s.heap && s.th[t].Idle? && RetiredInv(s, t)
    ensures var s' := Allocated(s, t, addr, item);
            Evolves(s, s', t) && ThreadInv(s', t)
  {
  }

  lemma Allocates(s: State, a: Act)
    requires Inv(s) && Allowed(s, a) && s.th[a.tid].Idle? && a.choice.Enqueue?
    ensures Inv(Do(s, a))
  {
    hide ListInv, Evolves, PcInv, RetiredInv;
    var t, s' := a.tid, Allocated(s, a.tid, a.choice.addr, a.choice.item);
    assert ThreadInv(s, t);
    AllocateList(s, t, a.choice.addr, a.choice.item);
    AllocateThread(s, t, a.choice.addr, a.choice.item);
    Conclude(s, s', t);
  }

  function LinkedBy(s: State, t: nat, ltail: Addr, k: nat, node: Addr): State
    requires t < |s.th| && ltail in s.heap && node in s.heap
  {
    Goto(s, t, EnqSwing(ltail, k, node))
    .(heap := s.heap[ltail := s.heap[ltail].(next := node)]
                    [node := s.heap[node].(ticket := |s.hist|, owner := Linked)],
      hist := s.hist + [node], vals := s.vals + [s.heap[node].item])
  }

  // The node whose successor field is still null is the last one, and tail points at it.
  lemma LinkPoint(s: State, ltail: Addr, k: nat, node: Addr, t: nat)
    requires ListInv(s) && ltail in s.heap && s.heap[ltail].ticket == k && k <= s.tl
    requires s.heap[ltail].next == NULL && Fresh(s, t, node)
    ensures k == s.tl == |s.hist| - 1 && ltail == s.tail && ltail != node && node != NULL
    ensures s.heap[ltail].owner == Linked && s.heap[node].next == NULL && s.heap[node].ticket == -1
  {
    assert NodeInv(s, ltail, s.heap[ltail]) && NodeInv(s, node, s.heap[node]);
  }

  lemma LinkNode(s: State, t: nat, ltail: Addr, k: nat, node: Addr, b: Addr)
    requires t < |s.th| && Spine(s) && b in s.heap && NodeInv(s, b, s.heap[b])
    requires ltail in s.heap && node in s.heap && node != ltail && node != NULL
    requires k == s.tl == |s.hist| - 1 && ltail == s.hist[k]
    requires s.heap[ltail].ticket == k && s.heap[ltail].owner == Linked
    requires s.heap[node].ticket == -1 && s.heap[node].next == NULL
    ensures var s' := LinkedBy(s, t, ltail, k, node);
            Spine(s') && NodeInv(s', b, s'.heap[b])
  {
  }

  lemma LinkList(s: State, t: nat, ltail: Addr, k: nat, node: Addr)
    requires t < |s.th| && ListInv(s) && ltail in s.heap && s.heap[ltail].ticket == k && k <= s.tl
    requires s.heap[ltail].next == NULL && Fresh(s, t, node)
    ensures ListInv(LinkedBy(s, t, ltail, k, node))
  {
    LinkPoint(s, ltail, k, node, t);
    var s' := LinkedBy(s, t, ltail, k, node);
    hide Spine, NodeInv;
    LinkNode(s, t, ltail, k, node, ltail);
    forall b | b in s'.heap ensures NodeInv(s', b, s'.heap[b]) {
      LinkNode(s, t, ltail, k, node, b);
    }
  }

  lemma LinkEvolves(s: State, t: nat, ltail: Addr, k: nat, node: Addr)
    requires Shape(s) && t < |s.th| && !Scans(s.th[t]) && Fresh(s, t, node)
    requires ltail in s.heap && ltail != node && s.heap[ltail].next == NULL && s.heap[node].ticket == -1
    ensures Evolves(s, LinkedBy(s, t, ltail, k, node), t)
  {
  }

  lemma LinkThread(s: State, t: nat, pc: Pc)
    requires Shape(s) && t < |s.th| && s.th[t] == pc && pc.EnqCasNext? && Guard(s, HeadSlot(t), pc.ltail, pc.k)
    requires Fresh(s, t, pc.node) && pc.ltail != pc.node && pc.node != NULL && RetiredInv(s, t)
    ensures ThreadInv(LinkedBy(s, t, pc.ltail, pc.k, pc.node), t)
  {
  }

  lemma LinksNode(s: State, a: Act)
    requires Inv(s) && Allowed(s, a) && s.th[a.tid].EnqCasNext?
    ensures Inv(Do(s, a))
  {
    hide ListInv, Evolves, RetiredInv, Quiet;
    var t, pc := a.tid, s.th[a.tid];
    assert ThreadInv(s, t);
    if s.heap[pc.ltail].next == NULL {
      LinkList(s, t, pc.ltail, pc.k, pc.node);
      LinkPoint(s, pc.ltail, pc.k, pc.node, t);
      LinkEvolves(s, t, pc.ltail, pc.k, pc.node);
      LinkThread(s, t, pc);
      Conclude(s, LinkedBy(s, t, pc.ltail, pc.k, pc.node), t);
    } else {
      MoveTo(s, t, EnqLoadTail(pc.node));
      QuietKeeps(s, Goto(s, t, EnqLoadTail(pc.node)), t);
    }
  }

  lemma TailMoves(s: State, last: Addr, k: nat, lnext: Addr)
    requires ListInv(s) && last in s.heap && s.heap[last].ticket == k && s.heap[last].next == lnext != NULL
    requires s.tail == last
    ensures ListInv(s.(tail := lnext, tl := s.tl + 1))
  {
    assert NodeInv(s, last, s.heap[last]);
    assert Spine(s.(tail := lnext, tl := s.tl + 1)) by { hide NodesInv; }
    hide Spine;
    NodesIgnore(s, s.(tail := lnext, tl := s.tl + 1));
  }

  lemma NodesIgnore(s: State, s': State)
    requires s.hd <= |s.hist| == |s.vals| && NodesInv(s)
    requires s'.heap == s.heap && s'.hist == s.hist && s'.vals == s.vals && s'.hd == s.hd
    ensures NodesInv(s')
  {
    forall b | b in s.heap ensures NodeInv(s', b, s.heap[b]) {
      assert NodeInv(s, b, s.heap[b]);
    }
  }

  lemma SwingEvolves(s: State, t: nat, pc: Pc, s': State)
    requires Shape(s) && t < |s.th| && !Scans(s.th[t]) && !Scans(pc)
    requires s' == s.(th := s.th[t := pc], tail := s'.tail, tl := s'.tl) && s.tl <= s'.tl
    ensures Evolves(s, s', t)
  {
  }

  lemma SwingThread(s: State, t: nat, pc: Pc, s': State)
    requires Shape(s) && t < |s.th| && RetiredInv(s, t)
    requires pc == EnqClear0 || pc == DeqLoadHead || (pc.EnqLoadTail? && Fresh(s, t, pc.node))
    requires s' == s.(th := s.th[t := pc], tail := s'.tail, tl := s'.tl)
    ensures ThreadInv(s', t)
  {
    assert PcAt(s', t, pc);
  }

  lemma ListIgnoresThreads(s: State, th: seq<Pc>)
    requires ListInv(s)
    ensures ListInv(s.(th := th))
  {
    NodesIgnore(s, s.(th := th));
  }

  lemma SwingsTail(s: State, a: Act)
    requires Inv(s) && Allowed(s, a)
    requires s.th[a.tid].EnqSwing? || s.th[a.tid].EnqHelp? || s.th[a.tid].DeqHelp?
    ensures Inv(Do(s, a))
  {
    hide ListInv, RetiredInv, Evolves;
    var t, pc, s' := a.tid, s.th[a.tid], Do(s, a);
    assert ThreadInv(s, t);
    var last := if pc.DeqHelp? then pc.lhead else pc.ltail;
    var s1 := if s.tail == last then s.(tail := pc.lnext, tl := s.tl + 1) else s;
    if s.tail == last { TailMoves(s, last, pc.k, pc.lnext); }
    var pc' := if pc.EnqSwing? then EnqClear0 else if pc.EnqHelp? then EnqLoadTail(pc.node) else DeqLoadHead;
    assert s' == s1.(th := s.th[t := pc']);
    ListIgnoresThreads(s1, s'.th);
    SwingThread(s, t, pc', s');
    SwingEvolves(s, t, pc', s');
    Conclude(s, s', t);
  }

  function HeadMoved(s: State, t: nat, lhead: Addr, k: nat, lnext: Addr): State
    requires t < |s.th| && lhead in s.heap
  {
    Goto(s, t, DeqRead(lhead, k, lnext))
    .(head := lnext, hd := s.hd + 1, taken := s.taken + [t],
      heap := s.heap[lhead := s.heap[lhead].(owner := Unlinked(t))])
  }

  lemma DoMovesHead(s: State, a: Act)
    requires Shape(s) && Allowed(s, a) && s.th[a.tid].DeqCasHead? && s.th[a.tid].lhead in s.heap
    ensures var t, pc := a.tid, s.th[a.tid];
            Do(s, a) == if s.head == pc.lhead then HeadMoved(s, t, pc.lhead, pc.k, pc.lnext)
                        else Goto(s, t, DeqLoadHead)
  {
  }

  lemma HeadNode(s: State, t: nat, lhead: Addr, k: nat, lnext: Addr, b: Addr)
    requires t < |s.th| && Spine(s) && lhead == s.head && k == s.hd < s.tl && lnext == s.hist[k + 1]
    requires b in s.heap && NodeInv(s, b, s.heap[b])
    ensures var s' := HeadMoved(s, t, lhead, k, lnext); NodeInv(s', b, s'.heap[b])
  {
  }

  lemma HeadSpine(s: State, t: nat, lhead: Addr, k: nat, lnext: Addr)
    requires t < |s.th| && Spine(s) && lhead == s.head && k == s.hd < s.tl && lnext == s.hist[k + 1]
    ensures Spine(HeadMoved(s, t, lhead, k, lnext))
  {
  }

  lemma HeadList(s: State, t: nat, lhead: Addr, k: nat, lnext: Addr)
    requires t < |s.th| && ListInv(s) && lhead in s.heap && s.heap[lhead].ticket == k < s.tl
    requires s.heap[lhead].next == lnext && s.head == lhead
    ensures k == s.hd && ListInv(HeadMoved(s, t, lhead, k, lnext))
  {
    assert NodeInv(s, lhead, s.heap[lhead]);
    HeadSpine(s, t, lhead, k, lnext);
    var s' := HeadMoved(s, t, lhead, k, lnext);
    hide NodeInv;
    forall b | b in s'.heap ensures NodeInv(s', b, s'.heap[b]) {
      HeadNode(s, t, lhead, k, lnext, b);
    }
  }

  lemma HeadThread(s: State, t: nat)
    requires Shape(s) && t < |s.th| && ThreadInv(s, t) && s.th[t].DeqCasHead?
    requires s.heap[s.th[t].lhead].owner == Linked && |s.taken| == s.th[t].k == s.hd && s.th[t].k !in s.out
    ensures var pc := s.th[t];
            var s' := HeadMoved(s, t, pc.lhead, pc.k, pc.lnext);
            Evolves(s, s', t) && ThreadInv(s', t)
  {
  }

  lemma MovesHead(s: State, a: Act)
    requires Inv(s) && Allowed(s, a) && s.th[a.tid].DeqCasHead?
    ensures Inv(Do(s, a))
  {
    hide NodesInv, Evolves, RetiredInv, Quiet, Do;
    var t, pc := a.tid, s.th[a.tid];
    assert ThreadInv(s, t);
    DoMovesHead(s, a);
    if s.head == pc.lhead {
      HeadList(s, t, pc.lhead, pc.k, pc.lnext);
      HeadThread(s, t);
      hide Spine;
      Conclude(s, HeadMoved(s, t, pc.lhead, pc.k, pc.lnext), t);
    } else {
      MoveTo(s, t, DeqLoadHead);
      QuietKeeps(s, Goto(s, t, DeqLoadHead), t);
    }
  }

  // --- retire ----------------------------------------------------------------------------

  // A change of the retired list of t, of owners Unlinked/Retired and of `out` only.
  lemma RetireNode(s: State, s': State, b: Addr)
    requires Spine(s) && b in s.heap && NodeInv(s, b, s.heap[b]) && b in s'.heap
    requires s'.hist == s.hist && s'.vals == s.vals && s'.hd == s.hd
    requires s'.heap[b] == s.heap[b] || (s.heap[b].owner.Unlinked? && exists t :: s'.heap[b] == s.heap[b].(owner := Retired(t)))
    ensures NodeInv(s', b, s'.heap[b])
  {
  }

  lemma RetireSpine(s: State, s': State, k: nat, item: int)
    requires Spine(s) && k + 1 < |s.vals| && item == s.vals[k + 1] && k < s.hd
    requires s' == s.(heap := s'.heap, retired := s'.retired, th := s'.th, out := s'.out)
    requires (s'.out == s.out || s'.out == s.out[k := item]) && NULL !in s'.heap
    requires forall b :: b in s.heap && s.heap[b].owner == Linked ==> b in s'.heap && s'.heap[b] == s.heap[b]
    ensures Spine(s')
  {
  }

  function Pushed(s: State, t: nat, pc: Pc): State
    requires Shape(s) && t < |s.th| && pc.RetPush? && pc.lhead in s.heap
  {
    var list := s.retired[t] + [pc.lhead];
    Finish(s, t, list, pc.k, pc.item, 0)
    .(retired := s.retired[t := list], heap := s.heap[pc.lhead := s.heap[pc.lhead].(owner := Retired(t))])
  }

  lemma PushEvolves(s: State, t: nat, pc: Pc)
    requires Shape(s) && t < |s.th| && s.th[t] == pc && pc.RetPush?
    requires pc.lhead in s.heap && s.heap[pc.lhead].owner == Unlinked(t) && Took(s, t, pc.k)
    ensures Evolves(s, Pushed(s, t, pc), t)
  {
  }

  lemma PushThread(s: State, t: nat, pc: Pc)
    requires Shape(s) && t < |s.th| && ThreadInv(s, t) && s.th[t] == pc && pc.RetPush? && |s.hp| > 0
    ensures ThreadInv(Pushed(s, t, pc), t)
  {
    var s', list := Pushed(s, t, pc), s.retired[t] + [pc.lhead];
    assert PcAt(s', t, RetScan(pc.k, pc.item, 0, list[0], 0));
  }

  lemma PushesRetired(s: State, a: Act)
    requires Inv(s) && Allowed(s, a) && s.th[a.tid].RetPush?
    ensures Inv(Do(s, a))
  {
    hide NodeInv, Evolves, RetiredInv;
    var t, pc, s' := a.tid, s.th[a.tid], Do(s, a);
    assert ThreadInv(s, t);
    assert s' == Pushed(s, t, pc);
    PushThread(s, t, pc);
    PushEvolves(s, t, pc);
    RetireSpine(s, s', pc.k, pc.item);
    forall b | b in s'.heap ensures NodeInv(s', b, s'.heap[b]) {
      assert NodeInv(s, b, s.heap[b]);
      RetireNode(s, s', b);
    }
    Conclude(s, s', t);
  }

  lemma ScanEvolves(s: State, t: nat, s': State)
    requires Shape(s) && t < |s.th| && s.th[t].RetScan? && s.th[t].p < |s.hp|
    requires s' == s.(th := s'.th, out := s'.out) && |s'.th| == |s.th|
    requires forall u :: 0 <= u < |s.th| && u != t ==> s'.th[u] == s.th[u]
    requires forall k :: k in s'.out && k !in s.out ==> Took(s, t, k)
    requires var pc, pc' := s.th[t], s'.th[t];
             || pc'.Idle? || (pc'.RetScan? && pc'.p == 0)
             || (s.hp[pc.p] != pc.obj && pc'.RetScan? && pc'.obj == pc.obj && pc'.p == pc.p + 1)
             || (s.hp[pc.p] != pc.obj && pc'.RetDelete? && pc'.obj == pc.obj && |s.hp| == pc.p + 1)
    ensures Evolves(s, s', t)
  {
  }

  lemma ScanThread(s: State, t: nat, s': State, pc: Pc)
    requires Shape(s) && t < |s.th| && ThreadInv(s, t) && s.th[t].RetScan?
    requires s' == s.(th := s.th[t := pc], out := s'.out)
    requires pc.Idle? || (s'.out == s.out && Scans(pc) && Scanning(s, t, pc) && pc.k == s.th[t].k && pc.item == s.th[t].item)
    ensures ThreadInv(s', t)
  {
    assert PcAt(s', t, pc);
  }

  lemma ScansSlot(s: State, a: Act)
    requires Inv(s) && Allowed(s, a) && s.th[a.tid].RetScan?
    ensures Inv(Do(s, a))
  {
    hide NodeInv, Evolves, RetiredInv;
    var t, pc, s' := a.tid, s.th[a.tid], Do(s, a);
    assert ThreadInv(s, t);
    ScanThread(s, t, s', s'.th[t]);
    ScanEvolves(s, t, s');
    RetireSpine(s, s', pc.k, pc.item);
    forall b | b in s'.heap ensures NodeInv(s', b, s'.heap[b]) {
      RetireNode(s, s', b);
    }
    Conclude(s, s', t);
  }

  function Deleted(s: State, t: nat, pc: Pc): State
    requires Shape(s) && t < |s.th| && pc.RetDelete? && pc.i < |s.retired[t]|
  {
    var list := s.retired[t][..pc.i] + s.retired[t][pc.i + 1..];
    Finish(s, t, list, pc.k, pc.item, pc.i).(retired := s.retired[t := list], heap := s.heap - {pc.obj})
  }

  lemma DeleteEvolves(s: State, t: nat, pc: Pc)
    requires Shape(s) && t < |s.th| && s.th[t] == pc && pc.RetDelete? && Scanning(s, t, pc)
    requires pc.obj in s.heap && s.heap[pc.obj].owner == Retired(t) && Took(s, t, pc.k)
    ensures Evolves(s, Deleted(s, t, pc), t)
  {
  }

  lemma DeleteThread(s: State, t: nat, pc: Pc)
    requires Shape(s) && t < |s.th| && ThreadInv(s, t) && s.th[t] == pc && pc.RetDelete? && |s.hp| > 0
    ensures ThreadInv(Deleted(s, t, pc), t)
  {
    var s', r := Deleted(s, t, pc), s.retired[t];
    var list := r[..pc.i] + r[pc.i + 1..];
    assert RetiredInv(s', t) by {
      assert forall i :: 0 <= i < |list| ==> list[i] == if i < pc.i then r[i] else r[i + 1];
    }
    hide RetiredInv;
    if pc.i < |list| {
      assert PcAt(s', t, RetScan(pc.k, pc.item, pc.i, list[pc.i], 0));
    } else {
      assert PcAt(s', t, Idle);
    }
  }

  lemma DeletesNode(s: State, a: Act)
    requires Inv(s) && Allowed(s, a) && s.th[a.tid].RetDelete?
    ensures Inv(Do(s, a))
  {
    hide NodeInv, Evolves;
    var t, pc, s' := a.tid, s.th[a.tid], Do(s, a);
    assert ThreadInv(s, t);
    assert s' == Deleted(s, t, pc);
    DeleteThread(s, t, pc);
    DeleteEvolves(s, t, pc);
    RetireSpine(s, s', pc.k, pc.item);
    forall b | b in s'.heap ensures NodeInv(s', b, s'.heap[b]) {
      RetireNode(s, s', b);
    }
    Conclude(s, s', t);
  }

  // ---------------------------------------------------------------------------------------
  // Theorems
  // ---------------------------------------------------------------------------------------

  lemma KeepsByQuiet(s: State, a: Act)
    requires Inv(s) && Allowed(s, a)
    requires Quiet(s, Do(s, a), a.tid) && PcInv(Do(s, a), a.tid)
    ensures Inv(Do(s, a))
  {
    hide Quiet, PcInv, ListInv, Do;
    QuietKeeps(s, Do(s, a), a.tid);
  }

  lemma EnqueueKeeps(s: State, a: Act)
    requires Inv(s) && Allowed(s, a) && InEnqueue(s.th[a.tid])
    ensures Inv(Do(s, a))
  {
    assert ThreadInv(s, a.tid);
    if s.th[a.tid].EnqCheck? {
      assert s.tail in s.heap && s.heap[s.tail].owner == Linked;
      LinkedUnscanned(s, s.tail);
    }
    hide Quiet, PcInv, RetiredInv, ListInv, Do;
    match s.th[a.tid]
    case EnqCheck(_, _) => EnqueueChecks(s, a); KeepsByQuiet(s, a);
    case EnqClear0 => EnqueueClears(s, a); KeepsByQuiet(s, a);
    case EnqClear1 => EnqueueClears(s, a); KeepsByQuiet(s, a);
    case EnqCasNext(_, _, _) => LinksNode(s, a);
    case EnqSwing(_, _, _) => SwingsTail(s, a);
    case EnqHelp(_, _, _, _) => SwingsTail(s, a);
    case _ => EnqueueLoads(s, a); KeepsByQuiet(s, a);
  }

  lemma DequeueKeeps(s: State, a: Act)
    requires Inv(s) && Allowed(s, a)
    requires !s.th[a.tid].Idle? && !InEnqueue(s.th[a.tid]) && !InRetire(s.th[a.tid])
    ensures Inv(Do(s, a))
  {
    var pc := s.th[a.tid];
    assert ThreadInv(s, a.tid);
    assert s.head in s.heap && s.heap[s.head].owner == Linked;
    LinkedUnscanned(s, s.head);
    if pc.DeqRecheck? && pc.lhead == s.head && pc.lnext != NULL {
      RecheckMeaning(s, a.tid);
      LinkedUnscanned(s, pc.lnext);
    }
    hide Quiet, PcInv, RetiredInv, ListInv, Do;
    match pc
    case DeqCheckHead(_) => DequeueChecksHead(s, a); KeepsByQuiet(s, a);
    case DeqLoadTail(_, _) => DequeueLoads(s, a); KeepsByQuiet(s, a);
    case DeqLoadNext(_, _, _, _) => DequeueLoads(s, a); KeepsByQuiet(s, a);
    case DeqPublishNext(_, _, _, _, _) => DequeueProtectsNext(s, a); KeepsByQuiet(s, a);
    case DeqReloadNext(_, _, _, _, _) => DequeueProtectsNext(s, a); KeepsByQuiet(s, a);
    case DeqRecheck(_, _, _, _, _, _) => DequeueRechecks(s, a); KeepsByQuiet(s, a);
    case DeqCasHead(_, _, _) => MovesHead(s, a);
    case DeqHelp(_, _, _) => SwingsTail(s, a);
    case DeqRead(_, _, _) => DequeueReadsItem(s, a); KeepsByQuiet(s, a);
    case DeqLoadHead => DequeueProtectsHead(s, a); KeepsByQuiet(s, a);
    case DeqPublish(_) => DequeueProtectsHead(s, a); KeepsByQuiet(s, a);
    case DeqReload(_) => DequeueProtectsHead(s, a); KeepsByQuiet(s, a);
    case _ => DequeueClears(s, a); KeepsByQuiet(s, a);
  }

  // Every step of every thread, whatever the interleaving, keeps the invariant; in particular
  // no step sets `fault`.
  lemma StepKeeps(s: State, a: Act)
    requires Inv(s) && Allowed(s, a)
    ensures Inv(Do(s, a))
  {
    hide ListInv, ThreadInv;
    var pc := s.th[a.tid];
    if pc.Idle? {
      if a.choice.Dequeue? {
        MoveTo(s, a.tid, DeqLoadHead);
        KeepsByQuiet(s, a);
      } else {
        Allocates(s, a);
      }
    } else if InEnqueue(pc) {
      EnqueueKeeps(s, a);
    } else if pc.RetPush? {
      PushesRetired(s, a);
    } else if pc.RetScan? {
      ScansSlot(s, a);
    } else if pc.RetDelete? {
      DeletesNode(s, a);
    } else {
      DequeueKeeps(s, a);
    }
  }

  lemma InitInv(n: nat, sentinel: Addr)
    requires sentinel != NULL
    ensures Inv(Init(n, sentinel))
  {
    var s := Init(n, sentinel);
    forall t | 0 <= t < n ensures ThreadInv(s, t) {}
  }

  // A run: n registered threads, any schedule, any calls.
  ghost predicate Run(tr: seq<State>, acts: seq<Act>, n: nat, sentinel: Addr) {
    && sentinel != NULL && |tr| == |acts| + 1 && tr[0] == Init(n, sentinel)
    && (forall i :: 0 <= i < |acts| ==>
          Shape(tr[i]) && Allowed(tr[i], acts[i]) && tr[i + 1] == Do(tr[i], acts[i]))
  }

  lemma {:induction false} RunKeeps(tr: seq<State>, acts: seq<Act>, n: nat, sentinel: Addr, i: nat)
    requires Run(tr, acts, n, sentinel) && i < |tr|
    ensures Inv(tr[i])
  {
    hide Inv, Do;
    if i == 0 {
      InitInv(n, sentinel);
    } else {
      RunKeeps(tr, acts, n, sentinel, i - 1);
      StepKeeps(tr[i - 1], acts[i - 1]);
    }
  }

  // The ticket under which a thread validated the pointer it is about to dereference.
  function ValidatedTicket(s: State, pc: Pc): int
    requires Deref(pc) != NULL && !pc.RetDelete?
  {
    if pc.DeqRead? then pc.k + 1 else pc.k
  }

  // No step dereferences a deleted node, nor a different node reborn at its address.
  lemma NoUseAfterDelete(tr: seq<State>, acts: seq<Act>, n: nat, sentinel: Addr, i: nat, t: nat)
    requires Run(tr, acts, n, sentinel) && i < |tr| && t < |tr[i].th|
    requires Deref(tr[i].th[t]) != NULL
    ensures !tr[i].fault && Deref(tr[i].th[t]) in tr[i].heap
    ensures !tr[i].th[t].RetDelete? ==>
              tr[i].heap[Deref(tr[i].th[t])].ticket == ValidatedTicket(tr[i], tr[i].th[t])
  {
    RunKeeps(tr, acts, n, sentinel, i);
    hide Run, ListInv;
    assert ThreadInv(tr[i], t);
  }

  // A path along next fields starting at head.
  predicate PathFromHead(s: State, path: seq<Addr>) {
    && |path| > 0 && path[0] == s.head
    && (forall i :: 0 <= i < |path| ==> path[i] in s.heap)
    && (forall i :: 0 <= i < |path| - 1 ==> path[i + 1] == s.heap[path[i]].next)
  }

  lemma Successor(s: State, i: nat)
    requires ListInv(s) && s.hd <= i < |s.hist|
    ensures s.heap[s.hist[i]].next == if i + 1 < |s.hist| then s.hist[i + 1] else NULL
  {
    var a := s.hist[i];
    assert a in s.heap && s.heap[a].ticket == i;
    hide Spine;
    assert NodeInv(s, a, s.heap[a]);
  }

  lemma {:induction false} PathIsList(s: State, path: seq<Addr>, i: nat)
    requires ListInv(s) && PathFromHead(s, path) && i < |path|
    ensures s.hd + i < |s.hist| && path[i] == s.hist[s.hd + i]
  {
    hide NodesInv;
    if i > 0 {
      PathIsList(s, path, i - 1);
      Successor(s, s.hd + i - 1);
      assert path[i - 1 + 1] == s.heap[path[i - 1]].next && path[i] in s.heap;
    }
  }

  // In every run tail is never behind head, and at most one node follows it.
  lemma TailLag(tr: seq<State>, acts: seq<Act>, n: nat, sentinel: Addr, i: nat)
    requires Run(tr, acts, n, sentinel) && i < |tr|
    ensures var s := tr[i];
      && s.hd <= s.tl < |s.hist| && s.head == s.hist[s.hd] && s.tail == s.hist[s.tl] && s.tail in s.heap
      && (s.heap[s.tail].next != NULL ==> s.heap[s.tail].next in s.heap && s.heap[s.heap[s.tail].next].next == NULL)
  {
    hide Run, ThreadInv, NodesInv;
    RunKeeps(tr, acts, n, sentinel, i);
    var s := tr[i];
    Successor(s, s.tl);
    if s.tl + 1 < |s.hist| { Successor(s, s.tl + 1); }
  }

  predicate HoldsValidated(pc: Pc, a: Addr) {
    || (TailValidated(pc) && pc.ltail == a)
    || (HeadValidated(pc) && pc.lhead == a)
    || (NextValidated(pc) && pc.lnext == a)
  }

  // A node is deleted only when no path from head reaches it and no validated pointer holds it,
  // although the scan read the hazard slots one at a time.
  lemma DeletedNodeIsUnreachable(tr: seq<State>, acts: seq<Act>, n: nat, sentinel: Addr, i: nat, t: nat)
    requires Run(tr, acts, n, sentinel) && i < |tr| && t < |tr[i].th| && tr[i].th[t].RetDelete?
    ensures forall path :: PathFromHead(tr[i], path) ==> tr[i].th[t].obj !in path
    ensures forall u :: 0 <= u < |tr[i].th| ==> !HoldsValidated(tr[i].th[u], tr[i].th[t].obj)
  {
    RunKeeps(tr, acts, n, sentinel, i);
    var s, obj := tr[i], tr[i].th[t].obj;
    hide Run;
    assert ThreadInv(s, t);
    forall path | PathFromHead(s, path) ensures obj !in path {
      hide PcInv;
      forall j | 0 <= j < |path| ensures path[j] != obj {
        PathIsList(s, path, j);
      }
    }
    forall u | 0 <= u < |s.th| ensures !HoldsValidated(s.th[u], obj) {
      hide ListInv, RetiredInv;
      assert ThreadInv(s, u) && Progress(s.th[t], obj, |s.hp|) == |s.hp|;
    }
  }

  // --- refinement of a FIFO queue ----------------------------------------------------------

  function Abs(s: State): seq<int> {
    if s.hd + 1 <= |s.vals| then s.vals[s.hd + 1..] else []
  }

  // The linearization point passed by a step, read off the concrete state.
  function EventOf(s: State, a: Act): Event
    requires Shape(s) && Allowed(s, a)
  {
    var pc := s.th[a.tid];
    if pc.EnqCasNext? && pc.ltail in s.heap && pc.node in s.heap && s.heap[pc.ltail].next == NULL then
      Enq(s.heap[pc.node].item)
    else if pc.DeqCasHead? && s.head == pc.lhead && pc.lnext in s.heap then
      Deq(s.heap[pc.lnext].item)
    else if pc.DeqLoadNext? && pc.lhead in s.heap && s.heap[pc.lhead].next == NULL then SawEmpty
    else Tau
  }

  lemma SilentDequeueStep(s: State, t: nat)
    requires Shape(s) && t < |s.th| && !s.th[t].Idle? && !InEnqueue(s.th[t]) && !InRetire(s.th[t])
    requires Deref(s.th[t]) == NULL || Deref(s.th[t]) in s.heap
    requires !s.th[t].DeqCasHead?
    ensures DoDequeue(s, t).vals == s.vals && DoDequeue(s, t).hd == s.hd
  {
  }

  lemma SilentStep(s: State, a: Act)
    requires Shape(s) && Allowed(s, a)
    requires !s.th[a.tid].EnqCasNext? && !s.th[a.tid].DeqCasHead?
    ensures Do(s, a).vals == s.vals && Do(s, a).hd == s.hd
  {
    hide DoDequeue;
    var t, pc := a.tid, s.th[a.tid];
    if !pc.Idle? && !InEnqueue(pc) && !InRetire(pc) && (Deref(pc) == NULL || Deref(pc) in s.heap) {
      SilentDequeueStep(s, t);
    }
  }

  lemma LinkIsEnqueue(s: State, a: Act)
    requires Inv(s) && Allowed(s, a) && s.th[a.tid].EnqCasNext?
    ensures FifoStep(Abs(s), EventOf(s, a), Abs(Do(s, a)))
  {
    var pc, t := s.th[a.tid], a.tid;
    assert ThreadInv(s, t);
    hide RetiredInv;
    if s.heap[pc.ltail].next == NULL {
      LinkPoint(s, pc.ltail, pc.k, pc.node, t);
      hide NodesInv;
      assert Do(s, a) == LinkedBy(s, t, pc.ltail, pc.k, pc.node);
    }
  }

  lemma HeadAbs(s: State, t: nat, lhead: Addr, k: nat, lnext: Addr)
    requires t < |s.th| && Spine(s) && lhead in s.heap && k == s.hd < s.tl
    ensures Abs(s) != [] && Abs(s)[0] == s.vals[k + 1]
    ensures Abs(HeadMoved(s, t, lhead, k, lnext)) == Abs(s)[1..]
  {
  }

  lemma MoveEvent(s: State, a: Act)
    requires Shape(s) && Allowed(s, a) && s.th[a.tid].DeqCasHead? && s.th[a.tid].lnext in s.heap
    ensures EventOf(s, a) == if s.head == s.th[a.tid].lhead then Deq(s.heap[s.th[a.tid].lnext].item) else Tau
  {
  }

  lemma MoveIsDequeue(s: State, a: Act)
    requires Inv(s) && Allowed(s, a) && s.th[a.tid].DeqCasHead?
    ensures FifoStep(Abs(s), EventOf(s, a), Abs(Do(s, a)))
  {
    var pc, t := s.th[a.tid], a.tid;
    assert ThreadInv(s, t);
    hide RetiredInv, Spine, NodesInv, Do, HeadMoved, EventOf;
    DoMovesHead(s, a);
    MoveEvent(s, a);
    if s.head == pc.lhead {
      HeadList(s, t, pc.lhead, pc.k, pc.lnext);
      TicketItem(s, pc.lnext);
      hide Abs, PcInv;
      HeadAbs(s, t, pc.lhead, pc.k, pc.lnext);
    }
  }

  // Each step is one FIFO operation or leaves the abstract queue alone: enqueue takes effect at
  // the successful CAS of next, dequeue at the CAS of head, "empty" at the load of a null next.
  lemma StepIsFifo(s: State, a: Act)
    requires Inv(s) && Allowed(s, a)
    ensures FifoStep(Abs(s), EventOf(s, a), Abs(Do(s, a)))
  {
    var pc, t := s.th[a.tid], a.tid;
    if pc.EnqCasNext? {
      LinkIsEnqueue(s, a);
    } else if pc.DeqCasHead? {
      MoveIsDequeue(s, a);
    } else {
      SilentStep(s, a);
      assert ThreadInv(s, t);
      hide RetiredInv, NodesInv, Do;
      if pc.DeqLoadNext? && s.heap[pc.lhead].next == NULL {
        NoSuccessorMeansEmpty(s, pc.lhead, pc.k);
      }
    }
  }

  // The linearization points passed in the first i steps.
  function Events(tr: seq<State>, acts: seq<Act>, i: nat): (es: seq<Event>)
    requires i <= |acts| < |tr| && forall j :: 0 <= j < i ==> Shape(tr[j]) && Allowed(tr[j], acts[j])
    ensures |es| == i
  {
    if i == 0 then [] else Events(tr, acts, i - 1) + [EventOf(tr[i - 1], acts[i - 1])]
  }

  // In every run the values dequeued so far, followed by the queue, are the values enqueued so far.
  lemma {:induction false} RunIsFifo(tr: seq<State>, acts: seq<Act>, n: nat, sentinel: Addr, i: nat)
    requires Run(tr, acts, n, sentinel) && i <= |acts|
    ensures Enqueued(Events(tr, acts, i)) == Dequeued(Events(tr, acts, i)) + Abs(tr[i])
    ensures tr[i].vals == [0] + Enqueued(Events(tr, acts, i))
  {
    hide Inv, Do, EventOf, Abs, FifoStep, Shape, Allowed, Given, Taken, Enqueued, Dequeued, Init;
    if i == 0 {
      AbsInit(n, sentinel);
      NoEvents();
    } else {
      RunIsFifo(tr, acts, n, sentinel, i - 1);
      RunKeeps(tr, acts, n, sentinel, i - 1);
      StepIsFifo(tr[i - 1], acts[i - 1]);
      ValsGrow(tr[i - 1], acts[i - 1]);
      FifoAccounts(Events(tr, acts, i - 1), Abs(tr[i - 1]), EventOf(tr[i - 1], acts[i - 1]), Abs(tr[i]));
    }
  }

  lemma AbsInit(n: nat, sentinel: Addr)
    ensures Abs(Init(n, sentinel)) == [] && Init(n, sentinel).vals == [0]
  {
  }

  lemma ValsGrow(s: State, a: Act)
    requires Inv(s) && Allowed(s, a)
    ensures Do(s, a).vals == s.vals + Given(EventOf(s, a))
  {
    hide ListInv, RetiredInv;
    assert ThreadInv(s, a.tid);
    if !s.th[a.tid].EnqCasNext? && !s.th[a.tid].DeqCasHead? {
      SilentStep(s, a);
      hide Do;
    }
  }

  // The k-th dequeue to take effect returns the k-th value enqueued: completed calls have returned it,
  // calls under way hold it, and no two calls share a k.
  lemma DequeuesReturnInOrder(tr: seq<State>, acts: seq<Act>, n: nat, sentinel: Addr, i: nat)
    requires Run(tr, acts, n, sentinel) && i <= |acts|
    ensures Dequeued(Events(tr, acts, i)) <= Enqueued(Events(tr, acts, i))
    ensures forall k :: k in tr[i].out ==>
              k < |Dequeued(Events(tr, acts, i))| && tr[i].out[k] == Dequeued(Events(tr, acts, i))[k]
    ensures forall t :: 0 <= t < |tr[i].th| && HasItem(tr[i].th[t]) ==>
              var pc := tr[i].th[t];
              pc.k !in tr[i].out && pc.k < |Dequeued(Events(tr, acts, i))| && pc.item == Dequeued(Events(tr, acts, i))[pc.k]
    ensures forall t, u :: 0 <= t < u < |tr[i].th| && HasItem(tr[i].th[t]) && HasItem(tr[i].th[u]) ==>
              tr[i].th[t].k != tr[i].th[u].k
  {
    RunKeeps(tr, acts, n, sentinel, i);
    RunIsFifo(tr, acts, n, sentinel, i);
    var s, taken := tr[i], Dequeued(Events(tr, acts, i));
    assert |taken| == s.hd;
    assert forall k :: 0 <= k < s.hd ==> taken[k] == s.vals[k + 1];
    hide Run, Events, Enqueued, Dequeued, Abs;
    forall t | 0 <= t < |s.th| && HasItem(s.th[t]) ensures Fetched(s, t, s.th[t].k, s.th[t].item) {
      hide ListInv, RetiredInv;
      assert ThreadInv(s, t);
    }
  }

  predicate SaysEmpty(pc: Pc) {
    pc.DeqClearEmpty0? || pc.DeqClearEmpty1? || (pc.DeqRecheck? && pc.sawEmpty)
  }

  lemma EmptyFlag(s: State, t: nat)
    requires Inv(s) && t < |s.th|
    ensures s.th[t].DeqClearEmpty0? || s.th[t].DeqClearEmpty1? ==> s.th[t].sawEmpty
    ensures s.hd + 1 <= |s.vals| == |s.hist|
  {
    hide NodesInv, RetiredInv;
    assert ThreadInv(s, t);
  }

  // Only the thread that takes the step moves.
  predicate MovesOnly(s: State, s': State, t: nat) {
    |s'.th| == |s.th| && forall u :: 0 <= u < |s.th| && u != t ==> s'.th[u] == s.th[u]
  }

  lemma EnqueuePoint(s: State, t: nat)
    requires Shape(s) && t < |s.th| && InEnqueue(s.th[t])
    requires Deref(s.th[t]) == NULL || Deref(s.th[t]) in s.heap
    ensures MovesOnly(s, DoEnqueue(s, t), t) && !SaysEmpty(DoEnqueue(s, t).th[t])
  {
  }

  lemma RetirePoint(s: State, t: nat)
    requires Shape(s) && t < |s.th| && InRetire(s.th[t])
    ensures MovesOnly(s, DoRetire(s, t), t) && !SaysEmpty(DoRetire(s, t).th[t])
  {
  }

  // Where a point that reports "empty" comes from.
  predicate EmptySource(s: State, pc: Pc, pc': Pc) {
    || SaysEmpty(pc)
    || ((pc.DeqLoadNext? || pc.DeqReloadNext?) && s.hd + 1 == |s.hist|)
    || (pc.DeqRecheck? && pc' == DeqClearEmpty0(pc.sawEmpty))
  }

  lemma DequeuePoint(s: State, t: nat)
    requires Shape(s) && t < |s.th| && !s.th[t].Idle? && !InEnqueue(s.th[t]) && !InRetire(s.th[t])
    requires Deref(s.th[t]) == NULL || Deref(s.th[t]) in s.heap
    ensures MovesOnly(s, DoDequeue(s, t), t)
    ensures SaysEmpty(DoDequeue(s, t).th[t]) ==> EmptySource(s, s.th[t], DoDequeue(s, t).th[t])
  {
  }

  lemma StepPoint(s: State, a: Act)
    requires Shape(s) && Allowed(s, a)
    ensures MovesOnly(s, Do(s, a), a.tid)
    ensures SaysEmpty(Do(s, a).th[a.tid]) ==> EmptySource(s, s.th[a.tid], Do(s, a).th[a.tid])
  {
    hide DoEnqueue, DoDequeue, DoRetire;
    var t, pc := a.tid, s.th[a.tid];
    if !pc.Idle? && (Deref(pc) == NULL || Deref(pc) in s.heap) {
      if InEnqueue(pc) { EnqueuePoint(s, t); } else if InRetire(pc) { RetirePoint(s, t); } else { DequeuePoint(s, t); }
    }
  }

  lemma BecomesEmpty(s: State, a: Act, t: nat)
    requires Inv(s) && Allowed(s, a) && t < |s.th| && Inv(Do(s, a)) && t < |Do(s, a).th| && SaysEmpty(Do(s, a).th[t])
    ensures !s.th[t].Idle? && (SaysEmpty(s.th[t]) || Abs(s) == [])
  {
    hide Do, ListInv, ThreadInv;
    StepPoint(s, a);
    EmptyFlag(s, t);
    EmptyFlag(Do(s, a), t);
  }

  // A dequeue that returns "empty" saw the queue empty at a moment of the same call.
  lemma {:induction false} EmptyIsTruthful(tr: seq<State>, acts: seq<Act>, n: nat, sentinel: Addr, i: nat, t: nat)
    returns (m: nat)
    requires Run(tr, acts, n, sentinel) && i < |tr| && t < |tr[i].th| && SaysEmpty(tr[i].th[t])
    ensures m <= i && Abs(tr[m]) == []
    ensures forall q :: m <= q <= i ==> t < |tr[q].th| && !tr[q].th[t].Idle?
  {
    hide Inv, Do, Shape, Abs, Allowed;
    assert i > 0;
    RunKeeps(tr, acts, n, sentinel, i);
    RunKeeps(tr, acts, n, sentinel, i - 1);
    StepPoint(tr[i - 1], acts[i - 1]);
    BecomesEmpty(tr[i - 1], acts[i - 1], t);
    if SaysEmpty(tr[i - 1].th[t]) {
      m := EmptyIsTruthful(tr, acts, n, sentinel, i - 1, t);
    } else {
      m := i - 1;
    }
  }

  // --- calls -------------------------------------------------------------------------------------------

  function CallOf(c: Choice): Call {
    if c.Enqueue? then Put(c.item) else Take
  }

  // What the dequeue of a thread returns if its next step ends it.
  function Returning(pc: Pc): Option<int> {
    if HasItem(pc) then Some(pc.item) else None
  }

  // Thread t starts a call with step i and is in it until state j.
  ghost predicate InCall(tr: seq<State>, acts: seq<Act>, t: nat, i: nat, j: nat) {
    && i < j <= |acts| < |tr| && acts[i].tid == t && t < |tr[i].th| && tr[i].th[t].Idle?
    && forall m :: i < m < j ==> t < |tr[m].th| && !tr[m].th[t].Idle?
  }

  // The operations that thread t performed in steps i up to j.
  function EffectsOf(tr: seq<State>, acts: seq<Act>, t: nat, i: nat, j: nat): seq<Event>
    requires i <= j <= |acts| < |tr| && forall m :: i <= m < j ==> Shape(tr[m]) && Allowed(tr[m], acts[m])
    decreases j - i
  {
    if i == j then [] else
    EffectsOf(tr, acts, t, i, j - 1) + if acts[j - 1].tid == t then Effect(EventOf(tr[j - 1], acts[j - 1])) else []
  }

  // A call under way, with the operations it has performed so far.
  predicate CallAt(s: State, t: nat, c: Call, es: seq<Event>)
    requires t < |s.th|
  {
    var pc := s.th[t];
    match c
    case Put(v) =>
      && InEnqueue(pc)
      && if HoldsNode(pc) then es == [] && pc.node in s.heap && s.heap[pc.node].item == v else es == [Enq(v)]
    case Take =>
      && !pc.Idle? && !InEnqueue(pc)
      && if HoldsDetached(pc) || InRetire(pc) then pc.k + 1 < |s.vals| && es == [Deq(s.vals[pc.k + 1])] else es == []
  }

  // Items of nodes do not change, nor does what is linked.
  lemma ItemsStay(s: State, a: Act)
    requires Inv(s) && Allowed(s, a) && Inv(Do(s, a))
    ensures forall x :: x in s.heap && x in Do(s, a).heap ==> Do(s, a).heap[x].item == s.heap[x].item
    ensures s.vals <= Do(s, a).vals
  {
    hide ListInv, ThreadInv;
  }

  // After one more step of its thread a call is still under way, or has done what was asked for.
  predicate Advances(s: State, a: Act, c: Call, es: seq<Event>)
    requires Shape(s) && Allowed(s, a)
  {
    var t, s', es' := a.tid, Do(s, a), es + Effect(EventOf(s, a));
    && t < |s'.th|
    && if s'.th[t].Idle? then Served(c, es', Returning(s.th[t])) && (c.Take? && !HasItem(s.th[t]) ==> SaysEmpty(s.th[t]))
       else CallAt(s', t, c, es')
  }

  lemma EnqueueAdvances(s: State, a: Act, v: int, es: seq<Event>)
    requires Inv(s) && Allowed(s, a) && Inv(Do(s, a)) && InEnqueue(s.th[a.tid]) && CallAt(s, a.tid, Put(v), es)
    ensures Advances(s, a, Put(v), es)
  {
    hide ListInv, RetiredInv, Guards, Published, Positions, Scanning;
    assert ThreadInv(s, a.tid);
    hide Inv;
  }

  lemma DequeueAdvances(s: State, a: Act, es: seq<Event>)
    requires Inv(s) && Allowed(s, a) && Inv(Do(s, a)) && CallAt(s, a.tid, Take, es) && !InRetire(s.th[a.tid])
    requires !s.th[a.tid].DeqCasHead?
    ensures Advances(s, a, Take, es)
  {
    hide RetiredInv, Published, Links, Scanning, ListInv, Guards, Owns;
    assert ThreadInv(s, a.tid);
    hide Inv;
  }

  // The dequeue takes effect: what the event shows is the value at the position of its head.
  lemma MoveAdvances(s: State, a: Act, es: seq<Event>)
    requires Inv(s) && Allowed(s, a) && Inv(Do(s, a)) && CallAt(s, a.tid, Take, es) && s.th[a.tid].DeqCasHead?
    ensures Advances(s, a, Take, es)
  {
    hide RetiredInv, Published, Links, Scanning, NodesInv, FifoStep;
    MoveIsDequeue(s, a);
    assert ThreadInv(s, a.tid);
    HeadTicket(s, a.tid);
    hide Inv, PcInv, ListInv;
    var pc := s.th[a.tid];
    if s.head == pc.lhead { FirstOut(s, EventOf(s, a), Do(s, a)); }
  }

  lemma HeadTicket(s: State, t: nat)
    requires Inv(s) && t < |s.th| && s.th[t].DeqCasHead?
    ensures s.th[t].lnext in s.heap && (s.head == s.th[t].lhead ==> s.th[t].k == s.hd)
  {
    hide NodesInv, RetiredInv;
    assert ThreadInv(s, t);
  }

  lemma FirstOut(s: State, e: Event, s': State)
    requires FifoStep(Abs(s), e, Abs(s')) && e.Deq? && s'.vals == s.vals
    ensures s.hd + 1 < |s.vals| && e.v == s.vals[s.hd + 1]
  {
  }

  lemma RetireAdvances(s: State, a: Act, es: seq<Event>)
    requires Inv(s) && Allowed(s, a) && Inv(Do(s, a)) && CallAt(s, a.tid, Take, es) && InRetire(s.th[a.tid])
    ensures Advances(s, a, Take, es)
  {
    hide ListInv, RetiredInv, Published, Links, Guards, Positions, Scanning;
    assert ThreadInv(s, a.tid);
    hide Inv;
  }

  lemma CallStarts(s: State, a: Act)
    requires Shape(s) && Allowed(s, a) && s.th[a.tid].Idle?
    ensures a.tid < |Do(s, a).th| && CallAt(Do(s, a), a.tid, CallOf(a.choice), []) && EventOf(s, a) == Tau
  {
  }

  lemma CallAdvances(s: State, a: Act, c: Call, es: seq<Event>)
    requires Inv(s) && Allowed(s, a) && Inv(Do(s, a)) && CallAt(s, a.tid, c, es)
    ensures Advances(s, a, c, es)
  {
    hide Inv, Advances, Do;
    if c.Put? { EnqueueAdvances(s, a, c.v, es); }
    else if InRetire(s.th[a.tid]) { RetireAdvances(s, a, es); }
    else if s.th[a.tid].DeqCasHead? { MoveAdvances(s, a, es); }
    else { DequeueAdvances(s, a, es); }
  }

  // Steps of other threads leave a call where it is.
  lemma CallWaits(s: State, a: Act, t: nat, c: Call, es: seq<Event>)
    requires Inv(s) && Allowed(s, a) && Inv(Do(s, a)) && t < |s.th| && t != a.tid && CallAt(s, t, c, es)
    ensures t < |Do(s, a).th| && Do(s, a).th[t] == s.th[t] && CallAt(Do(s, a), t, c, es)
  {
    hide ListInv, RetiredInv, Guards, Published, Links, Positions, Scanning, Do;
    StepPoint(s, a);
    ItemsStay(s, a);
    assert ThreadInv(Do(s, a), t);
  }

  // A call of t started with step i: it is under way in state j, or it is over and was served.
  lemma {:induction false} CallHistory(tr: seq<State>, acts: seq<Act>, n: nat, sentinel: Addr, t: nat, i: nat, j: nat)
    requires Run(tr, acts, n, sentinel) && InCall(tr, acts, t, i, j)
    ensures t < |tr[j].th|
    ensures var c, es := CallOf(acts[i].choice), EffectsOf(tr, acts, t, i, j);
      if tr[j].th[t].Idle? then
        && acts[j - 1].tid == t && Served(c, es, Returning(tr[j - 1].th[t]))
        && (c.Take? && !HasItem(tr[j - 1].th[t]) ==> SaysEmpty(tr[j - 1].th[t]))
      else CallAt(tr[j], t, c, es)
  {
    hide Inv, Do, Shape, Allowed, EventOf, CallAt, Served, Init;
    RunKeeps(tr, acts, n, sentinel, j - 1);
    RunKeeps(tr, acts, n, sentinel, j);
    var c, s, a := CallOf(acts[i].choice), tr[j - 1], acts[j - 1];
    if i + 1 == j {
      assert EffectsOf(tr, acts, t, i, i) == [];
      CallStarts(s, a);
      CallIsBusy(tr[j], t, c, []);
      assert EffectsOf(tr, acts, t, i, j) == [] + Effect(EventOf(s, a)) == [];
    } else {
      CallHistory(tr, acts, n, sentinel, t, i, j - 1);
      var es := EffectsOf(tr, acts, t, i, j - 1);
      if a.tid == t {
        CallAdvances(s, a, c, es);
      } else {
        CallWaits(s, a, t, c, es);
        assert es + [] == es;
      }
    }
  }

  lemma CallIsBusy(s: State, t: nat, c: Call, es: seq<Event>)
    requires t < |s.th| && CallAt(s, t, c, es)
    ensures !s.th[t].Idle?
  {
  }

  // Every call that is over did what it was asked for, once: an enqueue has enqueued its argument, a
  // dequeue has dequeued the value it returns, or returns none and saw the queue empty at a moment m.
  lemma CallsAreServed(tr: seq<State>, acts: seq<Act>, n: nat, sentinel: Addr, t: nat, i: nat, j: nat) returns (m: nat)
    requires Run(tr, acts, n, sentinel) && InCall(tr, acts, t, i, j) && t < |tr[j].th| && tr[j].th[t].Idle?
    ensures Served(CallOf(acts[i].choice), EffectsOf(tr, acts, t, i, j), Returning(tr[j - 1].th[t]))
    ensures acts[i].choice.Dequeue? && Returning(tr[j - 1].th[t]) == None ==> i < m < j && Abs(tr[m]) == []
  {
    hide Inv, Do, Shape, Allowed, EventOf, Served, Init, Abs;
    CallHistory(tr, acts, n, sentinel, t, i, j);
    m := 0;
    if acts[i].choice.Dequeue? && Returning(tr[j - 1].th[t]) == None {
      m := EmptyIsTruthful(tr, acts, n, sentinel, j - 1, t);
      assert !(m <= i <= j - 1);
    }
  }

  // --- reclamation -----------------------------------------------------------------------------------------

  // Who has the node at a: the enqueue that made it, the list, the dequeue that unlinked it, or the retired
  // list of a thread.
  predicate Kept(s: State, a: Addr)
    requires a in s.heap && Shape(s)
  {
    match s.heap[a].owner
    case Private(t) => t < |s.th| && HoldsNode(s.th[t]) && s.th[t].node == a
    case Linked => true
    case Unlinked(t) => t < |s.th| && HoldsDetached(s.th[t]) && s.th[t].lhead == a
    case Retired(t) => t < |s.th| && a in s.retired[t]
  }

  ghost predicate AllKept(s: State) {
    Shape(s) && forall a {:trigger Kept(s, a)} :: a in s.heap ==> Kept(s, a)
  }

  // The thread keeps what it has in its hands, and no node is touched.
  predicate HoldsOn(s: State, s': State, t: nat)
    requires t < |s.th|
  {
    && s'.heap == s.heap && s'.retired == s.retired && Shape(s') && MovesOnly(s, s', t)
    && (HoldsNode(s.th[t]) ==> HoldsNode(s'.th[t]) && s'.th[t].node == s.th[t].node)
    && (HoldsDetached(s.th[t]) ==> HoldsDetached(s'.th[t]) && s'.th[t].lhead == s.th[t].lhead)
  }

  lemma HoldsOnKeepsAll(s: State, s': State, t: nat)
    requires AllKept(s) && t < |s.th| && HoldsOn(s, s', t)
    ensures AllKept(s')
  {
    forall a | a in s'.heap ensures Kept(s', a) { assert Kept(s, a); }
  }

  lemma EnqueueHoldsOn(s: State, t: nat)
    requires Shape(s) && t < |s.th| && InEnqueue(s.th[t]) && !s.th[t].EnqCasNext?
    requires Deref(s.th[t]) == NULL || Deref(s.th[t]) in s.heap
    ensures HoldsOn(s, DoEnqueue(s, t), t)
  {
  }

  lemma DequeueHoldsOn(s: State, t: nat)
    requires Shape(s) && t < |s.th| && !s.th[t].Idle? && !InEnqueue(s.th[t]) && !InRetire(s.th[t]) && !s.th[t].DeqCasHead?
    requires Deref(s.th[t]) == NULL || Deref(s.th[t]) in s.heap
    ensures HoldsOn(s, DoDequeue(s, t), t)
  {
  }

  // The nodes other than x stay where they are.
  predicate Rest(s: State, s': State, t: nat, x: Addr)
    requires t < |s.th|
  {
    && Shape(s) && Shape(s') && MovesOnly(s, s', t)
    && (forall a :: a in s'.heap && a != x ==> a in s.heap && s'.heap[a].owner == s.heap[a].owner)
    && (forall u :: 0 <= u < |s.th| && u != t ==> s'.retired[u] == s.retired[u])
    && (forall a :: a in s.retired[t] && a != x ==> a in s'.retired[t])
    && (HoldsNode(s.th[t]) && s.th[t].node != x ==> HoldsNode(s'.th[t]) && s'.th[t].node == s.th[t].node)
    && (HoldsDetached(s.th[t]) && s.th[t].lhead != x ==> HoldsDetached(s'.th[t]) && s'.th[t].lhead == s.th[t].lhead)
  }

  lemma RestIsKept(s: State, s': State, t: nat, x: Addr)
    requires AllKept(s) && t < |s.th| && Rest(s, s', t, x) && (x in s'.heap ==> Kept(s', x))
    ensures AllKept(s')
  {
    forall a | a in s'.heap ensures Kept(s', a) {
      if a != x { assert Kept(s, a); }
    }
  }

  lemma AllocKeepsAll(s: State, a: Act)
    requires AllKept(s) && Allowed(s, a) && s.th[a.tid].Idle?
    ensures AllKept(Do(s, a))
  {
    if a.choice.Dequeue? {
      HoldsOnKeepsAll(s, Do(s, a), a.tid);
    } else {
      RestIsKept(s, Do(s, a), a.tid, a.choice.addr);
    }
  }

  lemma LinkKeepsAll(s: State, t: nat)
    requires AllKept(s) && t < |s.th| && s.th[t].EnqCasNext? && s.th[t].ltail in s.heap && !DoEnqueue(s, t).fault
    ensures AllKept(DoEnqueue(s, t))
  {
    var pc, s' := s.th[t], DoEnqueue(s, t);
    if pc.ltail != NULL && s.heap[pc.ltail].next == NULL {
      RestIsKept(s, s', t, pc.node);
    } else {
      HoldsOnKeepsAll(s, s', t);
    }
  }

  lemma MoveKeepsAll(s: State, t: nat)
    requires AllKept(s) && t < |s.th| && s.th[t].DeqCasHead? && !DoDequeue(s, t).fault
    ensures AllKept(DoDequeue(s, t))
  {
    var pc, s' := s.th[t], DoDequeue(s, t);
    if s.head == pc.lhead { RestIsKept(s, s', t, pc.lhead); } else { HoldsOnKeepsAll(s, s', t); }
  }

  lemma PushKeepsAll(s: State, t: nat)
    requires AllKept(s) && t < |s.th| && s.th[t].RetPush? && !DoRetire(s, t).fault
    ensures AllKept(DoRetire(s, t))
  {
    var x, s' := s.th[t].lhead, DoRetire(s, t);
    assert s'.retired[t] == s.retired[t] + [x];
    assert x in s'.retired[t] && s'.heap[x].owner == Retired(t);
    hide AllKept;
    RestIsKept(s, s', t, x);
  }

  lemma ScanKeepsAll(s: State, t: nat)
    requires AllKept(s) && t < |s.th| && s.th[t].RetScan?
    ensures AllKept(DoRetire(s, t))
  {
    HoldsOnKeepsAll(s, DoRetire(s, t), t);
  }

  lemma DeleteKeepsAll(s: State, t: nat)
    requires AllKept(s) && t < |s.th| && s.th[t].RetDelete?
    requires s.th[t].i < |s.retired[t]| && s.retired[t][s.th[t].i] == s.th[t].obj
    ensures AllKept(DoRetire(s, t))
  {
    var pc, s' := s.th[t], DoRetire(s, t);
    Without(s.retired[t], pc.i);
    assert s'.retired[t] == s.retired[t][..pc.i] + s.retired[t][pc.i + 1..];
    hide AllKept, Kept;
    RestIsKept(s, s', t, pc.obj);
  }

  lemma Without(q: seq<Addr>, i: nat)
    requires i < |q|
    ensures forall a :: a in q && a != q[i] ==> a in q[..i] + q[i + 1..]
  {
    assert q == q[..i] + [q[i]] + q[i + 1..];
  }

  lemma StepKeepsAll(s: State, a: Act)
    requires AllKept(s) && Inv(s) && Allowed(s, a) && Inv(Do(s, a))
    ensures AllKept(Do(s, a))
  {
    hide AllKept, ListInv, RetiredInv, Published, Owns, Links, Positions, DoEnqueue, DoDequeue, DoRetire;
    var t, pc := a.tid, s.th[a.tid];
    assert ThreadInv(s, t);
    if pc.Idle? { AllocKeepsAll(s, a); }
    else if pc.EnqCasNext? { LinkKeepsAll(s, t); }
    else if InEnqueue(pc) {
      EnqueueHoldsOn(s, t);
      HoldsOnKeepsAll(s, DoEnqueue(s, t), t);
    }
    else if pc.RetPush? { PushKeepsAll(s, t); }
    else if pc.RetScan? { ScanKeepsAll(s, t); }
    else if pc.RetDelete? { DeleteKeepsAll(s, t); }
    else if pc.DeqCasHead? { MoveKeepsAll(s, t); }
    else {
      DequeueHoldsOn(s, t);
      HoldsOnKeepsAll(s, DoDequeue(s, t), t);
    }
  }

  // No node is lost: in every run each node is in the hands of the enqueue that made it or of the dequeue
  // that unlinked it, in the list, or in the retired list of a thread.
  lemma {:induction false} NoneLost(tr: seq<State>, acts: seq<Act>, n: nat, sentinel: Addr, i: nat)
    requires Run(tr, acts, n, sentinel) && i < |tr|
    ensures AllKept(tr[i])
  {
    hide Inv, Do, AllKept, Allowed;
    if i == 0 {
      InitKept(n, sentinel);
    } else {
      NoneLost(tr, acts, n, sentinel, i - 1);
      RunKeeps(tr, acts, n, sentinel, i - 1);
      RunKeeps(tr, acts, n, sentinel, i);
      StepKeepsAll(tr[i - 1], acts[i - 1]);
    }
  }

  lemma InitKept(n: nat, sentinel: Addr)
    ensures AllKept(Init(n, sentinel))
  {
  }

  // A hazard slot held the address at a moment from i up to j.
  ghost predicate Protected(tr: seq<State>, i: nat, j: nat, a: Addr) {
    exists m :: i <= m < j && m < |tr| && a in tr[m].hp
  }

  // How many entries of its retired list the thread has been through.
  function Scanned(pc: Pc, list: seq<Addr>): nat {
    match pc
    case RetScan(_, _, i, _, _) => if i <= |list| then i else 0
    case RetDelete(_, _, i, _) => if i <= |list| then i else 0
    case Idle => |list|
    case _ => 0
  }

  // An entry the scan leaves behind was left behind before or is found in a slot now.
  lemma ScanLeaves(s: State, t: nat, x: nat)
    requires Shape(s) && t < |s.th| && InRetire(s.th[t]) && !DoRetire(s, t).fault
    requires s.th[t].RetScan? || s.th[t].RetDelete? ==> s.th[t].i < |s.retired[t]| && s.retired[t][s.th[t].i] == s.th[t].obj
    requires var s' := DoRetire(s, t);
      && |s'.retired| == |s.th| && |s'.th| == |s.th| && x < Scanned(s'.th[t], s'.retired[t]) && x < |s'.retired[t]|
    ensures var a := DoRetire(s, t).retired[t][x];
      || (x < Scanned(s.th[t], s.retired[t]) && x < |s.retired[t]| && s.retired[t][x] == a)
      || a in s.hp
  {
  }

  // Only the thread itself changes its retired list, and only retire starts to scan it.
  lemma RetiredStays(s: State, a: Act, u: nat)
    requires Inv(s) && Allowed(s, a) && Inv(Do(s, a)) && u < |s.th|
    ensures |Do(s, a).th| == |s.th| == |Do(s, a).retired|
    ensures u != a.tid ==> Do(s, a).retired[u] == s.retired[u] && Do(s, a).th[u] == s.th[u]
    ensures u == a.tid && !InRetire(s.th[u]) ==> var pc := Do(s, a).th[u]; !pc.RetScan? && !pc.RetDelete? && (pc.Idle? ==> !HasItem(s.th[u]))
  {
    hide ListInv, RetiredInv, Published, Owns, Links, Positions, Guards, DoEnqueue, DoDequeue, DoRetire;
    var t, pc := a.tid, s.th[a.tid];
    StepPoint(s, a);
    assert ThreadInv(s, t);
    if !pc.Idle? && (Deref(pc) == NULL || Deref(pc) in s.heap) {
      if InEnqueue(pc) { EnqueueRetires(s, t); }
      else if InRetire(pc) { RetireRetires(s, t); }
      else { DequeueRetires(s, t); }
    }
  }

  predicate RetiresNothing(s: State, s': State, t: nat)
    requires t < |s.th|
  {
    && s'.retired == s.retired && t < |s'.th|
    && !s'.th[t].RetScan? && !s'.th[t].RetDelete? && (s'.th[t].Idle? ==> !HasItem(s.th[t]))
  }

  lemma EnqueueRetires(s: State, t: nat)
    requires Shape(s) && t < |s.th| && InEnqueue(s.th[t]) && (Deref(s.th[t]) == NULL || Deref(s.th[t]) in s.heap)
    ensures RetiresNothing(s, DoEnqueue(s, t), t)
  {
    var pc := s.th[t];
    if !pc.EnqCasNext? { EnqueueHoldsOn(s, t); }
  }

  lemma DequeueRetires(s: State, t: nat)
    requires Shape(s) && t < |s.th| && !s.th[t].Idle? && !InEnqueue(s.th[t]) && !InRetire(s.th[t])
    requires Deref(s.th[t]) == NULL || Deref(s.th[t]) in s.heap
    ensures RetiresNothing(s, DoDequeue(s, t), t)
  {
  }

  lemma RetireRetires(s: State, t: nat)
    requires Shape(s) && t < |s.th| && InRetire(s.th[t])
    ensures |DoRetire(s, t).retired| == |s.retired|
    ensures forall u :: 0 <= u < |s.th| && u != t ==> DoRetire(s, t).retired[u] == s.retired[u]
  {
  }

  // The entries of the retired list that the scan has been through were found in a hazard slot.
  ghost predicate ScanSound(tr: seq<State>, i: nat, j: nat, t: nat)
    requires j < |tr| && t < |tr[j].th| && Shape(tr[j])
  {
    var list := tr[j].retired[t];
    forall x :: 0 <= x < Scanned(tr[j].th[t], list) && x < |list| ==> Protected(tr, i, j, list[x])
  }

  lemma StaysProtected(tr: seq<State>, i: nat, j: nat, a: Addr)
    requires i < j && Protected(tr, i, j - 1, a)
    ensures Protected(tr, i, j, a)
  {
  }

  lemma NowProtected(tr: seq<State>, i: nat, j: nat, a: Addr)
    requires i < j <= |tr| && a in tr[j - 1].hp
    ensures Protected(tr, i, j, a)
  {
  }

  lemma InvShape(s: State)
    requires Inv(s)
    ensures Shape(s)
  {
  }

  lemma RetireStep(s: State, a: Act, x: nat)
    requires Inv(s) && Allowed(s, a) && Inv(Do(s, a)) && a.tid < |Do(s, a).th| == |Do(s, a).retired|
    requires var pc', list' := Do(s, a).th[a.tid], Do(s, a).retired[a.tid];
      x < Scanned(pc', list') && x < |list'| && (!pc'.Idle? || HasItem(s.th[a.tid]))
    ensures var list, b := s.retired[a.tid], Do(s, a).retired[a.tid][x];
      || (x < Scanned(s.th[a.tid], list) && x < |list| && list[x] == b)
      || b in s.hp
  {
    hide ListInv, RetiredInv, Published, Owns, Links, Positions, Guards, DoEnqueue, DoDequeue, DoRetire;
    var t := a.tid;
    RetiredStays(s, a, t);
    assert ThreadInv(s, t);
    if InRetire(s.th[t]) { ScanLeaves(s, t, x); }
  }

  lemma NotScanned(s: State, s': State, t: nat)
    requires t < |s.th| && s.th[t].Idle? && t < |s'.th| == |s'.retired| && !s'.th[t].RetScan? && !s'.th[t].RetDelete?
    ensures !s'.th[t].Idle? || HasItem(s.th[t]) ==> Scanned(s'.th[t], s'.retired[t]) == 0
  {
  }

  lemma {:induction false} ScanHistory(tr: seq<State>, acts: seq<Act>, n: nat, sentinel: Addr, t: nat, i: nat, j: nat)
    requires Run(tr, acts, n, sentinel) && InCall(tr, acts, t, i, j)
    ensures t < |tr[j].th| && t < |tr[j - 1].th| && Shape(tr[j])
    ensures !tr[j].th[t].Idle? || HasItem(tr[j - 1].th[t]) ==> ScanSound(tr, i, j, t)
  {
    hide Inv, Do, Allowed, Init, Protected, Scanned;
    RunKeeps(tr, acts, n, sentinel, j - 1);
    RunKeeps(tr, acts, n, sentinel, j);
    InvShape(tr[j]);
    var s, a, s' := tr[j - 1], acts[j - 1], tr[j];
    RetiredStays(s, a, t);
    if i + 1 == j {
      NotScanned(s, s', t);
    } else {
      ScanHistory(tr, acts, n, sentinel, t, i, j - 1);
    }
    if i + 1 < j && (!s'.th[t].Idle? || HasItem(s.th[t])) {
      var list := s'.retired[t];
      forall x | 0 <= x < Scanned(s'.th[t], list) && x < |list| ensures Protected(tr, i, j, list[x]) {
        if a.tid != t {
          StaysProtected(tr, i, j, list[x]);
        } else {
          RetireStep(s, a, x);
          if x < Scanned(s.th[t], s.retired[t]) && x < |s.retired[t]| && s.retired[t][x] == list[x] {
            StaysProtected(tr, i, j, list[x]);
          } else {
            NowProtected(tr, i, j, list[x]);
          }
        }
      }
    }
  }

  // What a dequeue leaves on its thread's retired list, each node of it was held by a hazard slot at a moment
  // of the call.
  lemma OnlyProtectedStay(tr: seq<State>, acts: seq<Act>, n: nat, sentinel: Addr, t: nat, i: nat, j: nat)
    requires Run(tr, acts, n, sentinel) && InCall(tr, acts, t, i, j) && t < |tr[j].th| && tr[j].th[t].Idle?
    requires t < |tr[j - 1].th| && Returning(tr[j - 1].th[t]).Some?
    ensures t < |tr[j].retired| && forall a :: a in tr[j].retired[t] ==> Protected(tr, i, j, a)
  {
    hide Inv, Do, Allowed, Init, Protected;
    ScanHistory(tr, acts, n, sentinel, t, i, j);
  }

  // A thread that is done with its pointers holds none: both slots are null when a call is over and while
  // nodes are retired.
  predicate Clear(s: State, t: nat)
    requires Shape(s) && t < |s.th|
  {
    var pc := s.th[t];
    && (pc.Idle? || InRetire(pc) ==> s.hp[HeadSlot(t)] == NULL && s.hp[NextSlot(t)] == NULL)
    && (pc.EnqClear1? || pc.DeqClearEmpty1? || pc.DeqClear1? ==> s.hp[HeadSlot(t)] == NULL)
  }

  predicate OwnSlotsOnly(s: State, s': State, t: nat)
    requires Shape(s) && t < |s.th|
  {
    && Shape(s') && |s'.th| == |s.th|
    && (s'.hp == s.hp || s'.hp == s.hp[HeadSlot(t) := s'.hp[HeadSlot(t)]] || s'.hp == s.hp[NextSlot(t) := s'.hp[NextSlot(t)]])
  }

  lemma EnqueueSlots(s: State, t: nat)
    requires Shape(s) && t < |s.th| && InEnqueue(s.th[t]) && (Deref(s.th[t]) == NULL || Deref(s.th[t]) in s.heap)
    ensures OwnSlotsOnly(s, DoEnqueue(s, t), t)
  {
  }

  lemma DequeueSlots(s: State, t: nat)
    requires Shape(s) && t < |s.th| && !s.th[t].Idle? && !InEnqueue(s.th[t]) && !InRetire(s.th[t])
    requires Deref(s.th[t]) == NULL || Deref(s.th[t]) in s.heap
    ensures OwnSlotsOnly(s, DoDequeue(s, t), t)
  {
  }

  predicate NeedsClear(pc: Pc) {
    pc.Idle? || InRetire(pc) || pc.EnqClear1? || pc.DeqClearEmpty1? || pc.DeqClear1?
  }

  predicate Clears(pc: Pc) {
    pc.EnqClear0? || pc.EnqClear1? || pc.DeqClearEmpty0? || pc.DeqClearEmpty1? || pc.DeqClear0? || pc.DeqClear1?
  }

  predicate StaysBusy(s: State, t: nat) {
    t < |s.th| && !NeedsClear(s.th[t])
  }

  lemma EnqueueBusy(s: State, t: nat)
    requires Shape(s) && t < |s.th| && InEnqueue(s.th[t]) && !Clears(s.th[t]) && (Deref(s.th[t]) == NULL || Deref(s.th[t]) in s.heap)
    ensures StaysBusy(DoEnqueue(s, t), t)
  {
  }

  lemma DequeueBusy(s: State, t: nat)
    requires Shape(s) && t < |s.th| && !s.th[t].Idle? && !InEnqueue(s.th[t]) && !InRetire(s.th[t]) && !Clears(s.th[t])
    requires Deref(s.th[t]) == NULL || Deref(s.th[t]) in s.heap
    ensures StaysBusy(DoDequeue(s, t), t)
  {
  }

  lemma SlotsClear(s: State, a: Act)
    requires Shape(s) && Allowed(s, a) && Clears(s.th[a.tid]) && Clear(s, a.tid)
    ensures var s' := Do(s, a); Shape(s') && a.tid < |s'.th| && Clear(s', a.tid)
  {
  }

  lemma RetireSlots(s: State, t: nat)
    requires Shape(s) && t < |s.th| && InRetire(s.th[t])
    ensures GoesOnRetiring(s, DoRetire(s, t), t)
  {
  }

  predicate GoesOnRetiring(s: State, s': State, t: nat)
    requires t < |s.th|
  {
    s'.hp == s.hp && Shape(s') && |s'.th| == |s.th| && (InRetire(s'.th[t]) || s'.th[t].Idle?)
  }

  lemma StepClears(s: State, a: Act, t: nat)
    requires Inv(s) && Allowed(s, a) && Inv(Do(s, a)) && t < |s.th| && Clear(s, t)
    ensures t < |Do(s, a).th| && Shape(Do(s, a)) && Clear(Do(s, a), t)
  {
    hide ListInv, RetiredInv, Published, Owns, Links, Positions, Guards, DoEnqueue, DoDequeue, DoRetire;
    var u, pc, s' := a.tid, s.th[a.tid], Do(s, a);
    StepPoint(s, a);
    assert ThreadInv(s, u);
    if !pc.Idle? && !Clears(pc) && (Deref(pc) == NULL || Deref(pc) in s.heap) {
      if InEnqueue(pc) {
        EnqueueSlots(s, u);
        EnqueueBusy(s, u);
      } else if InRetire(pc) {
        RetireSlots(s, u);
      } else {
        DequeueSlots(s, u);
        DequeueBusy(s, u);
      }
    } else if Clears(pc) {
      if InEnqueue(pc) { EnqueueSlots(s, u); } else { DequeueSlots(s, u); }
      if t == u { SlotsClear(s, a); }
    }
  }

  // In every run a thread whose call is over publishes no pointer.
  lemma {:induction false} IdleIsClear(tr: seq<State>, acts: seq<Act>, n: nat, sentinel: Addr, i: nat, t: nat)
    requires Run(tr, acts, n, sentinel) && i < |tr| && t < |tr[i].th|
    ensures Shape(tr[i]) && Clear(tr[i], t)
  {
    hide Inv, Do, Allowed;
    RunKeeps(tr, acts, n, sentinel, i);
    InvShape(tr[i]);
    if i > 0 {
      RunKeeps(tr, acts, n, sentinel, i - 1);
      StepPoint(tr[i - 1], acts[i - 1]);
      IdleIsClear(tr, acts, n, sentinel, i - 1, t);
      StepClears(tr[i - 1], acts[i - 1], t);
    }
  }
}
