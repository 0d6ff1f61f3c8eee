/**
 The versioned undo log of the Makalu allocator: logged stores to persistent memory, commit by
 bumping the log version, and recovery by replaying the entries of the current version backwards.

 Crash model.  Of every data byte, every log slot and the version word we keep the set of contents
 a crash may leave behind: what was durable plus everything stored since.  A cache-line flush
 followed by a fence leaves only the current content.  Data bytes persist independently of each
 other; the fields of a log entry share a cache line and reach memory in program order.
 */
module UndoLog {

  type Byte = b: int | 0 <= b < 256
  type Mem = map<nat, Byte>

  const LINE := 64

  // --- log entries ---------------------------------------------------------------------------------

  datatype Kind = INTEGER | CHAR | ADDR | WORD

  function Width(k: Kind): (w: nat) {
    match k
    case INTEGER => 4
    case CHAR => 1
    case ADDR => 8
    case WORD => 8
  }

  // The 8 bytes of the value union.
  type Union = v: seq<Byte> | |v| == 8 witness [0, 0, 0, 0, 0, 0, 0, 0]

  datatype Entry = Entry(addr: nat, val: Union, kind: Kind, version: nat)

  predicate Covers(e: Entry, b: nat) {
    e.addr <= b < e.addr + Width(e.kind)
  }

  function Restore(m: Mem, e: Entry): Mem {
    map b | b in m :: if Covers(e, b) then e.val[b - e.addr] else m[b]
  }

  // Lines 361-383: the entries are replayed from the last to the first.
  function Replay(m: Mem, es: seq<Entry>): Mem {
    if es == [] then m else Replay(Restore(m, es[|es| - 1]), es[..|es| - 1])
  }

  // The byte logged by the first entry that covers b, or x if none does.
  function Earliest(es: seq<Entry>, b: nat, x: Byte): Byte {
    if es == [] then x
    else if Covers(es[0], b) then es[0].val[b - es[0].addr]
    else Earliest(es[1..], b, x)
  }

  lemma {:induction false} EarliestOfMore(es: seq<Entry>, e: Entry, b: nat, x: Byte)
    ensures Earliest(es + [e], b, x) == Earliest(es, b, if Covers(e, b) then e.val[b - e.addr] else x)
  {
    if es == [] {
      assert Earliest([e], b, x) == if Covers(e, b) then e.val[b - e.addr] else x;
    } else {
      EarliestOfMore(es[1..], e, b, x);
      assert (es + [e])[1..] == es[1..] + [e];
    }
  }

  // Replaying backwards makes the earliest logged value win.
  lemma {:induction false} ReplayIsEarliest(m: Mem, es: seq<Entry>, b: nat)
    requires b in m
    ensures Replay(m, es).Keys == m.Keys && Replay(m, es)[b] == Earliest(es, b, m[b])
  {
    if es != [] {
      var e, rest := es[|es| - 1], es[..|es| - 1];
      ReplayIsEarliest(Restore(m, e), rest, b);
      EarliestOfMore(rest, e, b, m[b]);
      assert es == rest + [e];
    }
  }

  // --- machine ------------------------------------------------------------------------------------

  datatype Line = Empty | Holds(line: nat)

  datatype Pc =
    | Idle
    | Session
    // create_*_log_entry, then the data store if there is one
    | SetAddr(a: nat, k: Kind, data: seq<Byte>)
    | SetVal(a: nat, k: Kind, data: seq<Byte>)
    | SetKind(a: nat, k: Kind, data: seq<Byte>)
    | SetVersion(a: nat, k: Kind, data: seq<Byte>)
    | SyncEntry(a: nat, k: Kind, data: seq<Byte>)
    | StoreData(a: nat, bytes: seq<Byte>)
    | AddLine(a: nat)
    // end_nvm_atomic
    | EndFlush | EndBump | EndSync
    // MAK_recover_metadata; n entries are left to replay
    | Seek | RecStore(n: nat) | RecAdd(n: nat) | RecFlush | RecBump | RecSync

  datatype State = State(
    mem: Mem, poss: map<nat, set<Byte>>, kept: map<nat, set<Byte>>,
    log: seq<Entry>, logPoss: seq<set<Entry>>, version: nat, versionPoss: set<nat>,
    table: seq<Line>, cur: nat, pc: Pc, fault: bool, start: Mem)

  // What a crash leaves behind.
  datatype Image = Image(mem: Mem, log: seq<Entry>, version: nat)

  datatype Act =
    | Start
    | LogStore(a: nat, k: Kind, bytes: seq<Byte>)  // MAK_STORE_NVM_*: log the old value, then store
    | LogOnly(a: nat, k: Kind)                    // MAK_LOG_NVM_* with the current value
    | NoLogStore(a: nat, bytes: seq<Byte>)        // MAK_NO_LOG_STORE_NVM
    | End
    | Step
    | Crash(image: Image)

  predicate InMem(m: Mem, a: nat, w: nat) {
    forall b :: a <= b < a + w ==> b in m
  }

  function LineOf(b: nat): nat {
    b / LINE
  }

  predicate OneLine(a: nat, w: nat) {
    w > 0 && LineOf(a) == LineOf(a + w - 1)
  }

  predicate Logged(es: seq<Entry>, b: nat) {
    exists i :: 0 <= i < |es| && Covers(es[i], b)
  }

  predicate CrashImage(s: State, c: Image) {
    && c.mem.Keys == s.mem.Keys && |c.log| == |s.log|
    && (forall b :: b in c.mem ==> b in s.poss && c.mem[b] in s.poss[b])
    && (forall i :: 0 <= i < |s.log| ==> i < |s.logPoss| && c.log[i] in s.logPoss[i])
    && c.version in s.versionPoss
  }

  // Stores lie in one cache line; a store without logging goes to bytes the session has logged.
  predicate Allowed(s: State, a: Act) {
    match a
    case Start => s.pc.Idle?
    case LogStore(p, k, bytes) => s.pc.Session? && |bytes| == Width(k) && InMem(s.mem, p, Width(k)) && OneLine(p, Width(k))
    case LogOnly(p, k) => s.pc.Session? && InMem(s.mem, p, Width(k)) && OneLine(p, Width(k))
    case NoLogStore(p, bytes) =>
      && s.pc.Session? && s.cur <= |s.log| && InMem(s.mem, p, |bytes|) && OneLine(p, |bytes|)
      && forall b :: p <= b < p + |bytes| ==> Logged(s.log[..s.cur], b)
    case End => s.pc.Session?
    case Step => !s.pc.Idle? && !s.pc.Session?
    case Crash(c) => CrashImage(s, c)
  }

  // --- persistence ----------------------------------------------------------------------------------

  predicate Within(a: nat, w: nat, b: nat) {
    a <= b < a + w
  }

  function Store(s: State, a: nat, bytes: seq<Byte>): State {
    s.(mem := map b | b in s.mem :: if Within(a, |bytes|, b) then bytes[b - a] else s.mem[b],
       poss := map b | b in s.poss :: if Within(a, |bytes|, b) then s.poss[b] + {bytes[b - a]} else s.poss[b],
       kept := map b | b in s.kept :: if Within(a, |bytes|, b) then s.kept[b] + {bytes[b - a]} else s.kept[b])
  }

  // A line flush; it takes effect with the next fence.
  function FlushLine(s: State, line: nat): State {
    s.(kept := map b | b in s.kept :: if LineOf(b) == line && b in s.mem then {s.mem[b]} else s.kept[b])
  }

  function Fence(s: State): State {
    s.(poss := s.kept)
  }

  function Slot(table: seq<Line>, line: nat): nat {
    if table == [] then 0 else line % |table|
  }

  // add_to_flush_table: the loop over the range's lines looks at its first line every time.
  function AddToTable(s: State, a: nat): State {
    var line, i := LineOf(a), Slot(s.table, LineOf(a));
    if i >= |s.table| || s.table[i] == Holds(line) then s
    else (if s.table[i].Holds? then FlushLine(s, s.table[i].line) else s).(table := s.table[i := Holds(line)])
  }

  function FlushAll(s: State): State {
    Fence(s.(kept := map b | b in s.kept :: if Holds(LineOf(b)) in s.table && b in s.mem then {s.mem[b]} else s.kept[b],
             table := seq(|s.table|, _ => Empty)))
  }

  // One more field of the entry at the log cursor.
  function SetEntry(s: State, e: Entry, pc: Pc): State {
    if s.cur < |s.log| == |s.logPoss| then
      s.(log := s.log[s.cur := e], logPoss := s.logPoss[s.cur := s.logPoss[s.cur] + {e}], pc := pc)
    else s.(fault := true)
  }

  function Read(m: Mem, a: nat, w: nat): seq<Byte> {
    seq(w, i requires 0 <= i < w => if a + i in m then m[a + i] else 0)
  }

  function SetUnion(old0: Union, bytes: seq<Byte>): Union {
    if |bytes| <= 8 then bytes + old0[|bytes|..] else old0
  }

  // The number of leading entries of the given version.
  function SeekEnd(log: seq<Entry>, version: nat): (n: nat)
    ensures n <= |log| && (forall i :: 0 <= i < n ==> log[i].version == version)
    ensures n < |log| ==> log[n].version != version
  {
    if log == [] || log[0].version != version then 0 else 1 + SeekEnd(log[1..], version)
  }

  // An entry past the end of the log is a fault.
  function NewEntry(s: State, pc: Pc): State {
    if s.cur < |s.log| then s.(pc := pc) else s.(fault := true)
  }

  function Do(s: State, a: Act): State
    requires Allowed(s, a)
  {
    match a
    case Start => s.(cur := 0, pc := Session, start := s.mem)
    case LogStore(p, k, bytes) => NewEntry(s, SetAddr(p, k, bytes))
    case LogOnly(p, k) => NewEntry(s, SetAddr(p, k, []))
    case NoLogStore(p, bytes) => s.(pc := StoreData(p, bytes))
    case End => s.(pc := EndFlush)
    case Crash(c) => Crashed(s, c)
    case Step => StepFrom(s)
  }

  // Auxiliary: `start` is the memory that recovery must bring back, `cur` the number of entries it
  // will find.  A session counts as committed if its bumped version survived.
  function Crashed(s: State, c: Image): State {
    State(c.mem, map b | b in c.mem :: {c.mem[b]}, map b | b in c.mem :: {c.mem[b]},
          c.log, seq(|c.log|, i requires 0 <= i < |c.log| => {c.log[i]}), c.version, {c.version},
          seq(|s.table|, _ => Empty), SeekEnd(c.log, c.version), Seek, s.fault,
          if Committed(s, c) then s.mem else s.start)
  }

  predicate Committed(s: State, c: Image) {
    s.pc.EndSync? && c.version == s.version
  }

  function StepFrom(s: State): State
    requires !s.pc.Idle? && !s.pc.Session?
  {
    match s.pc
    case SetAddr(a, k, data) =>
      SetEntry(s, CurEntry(s).(addr := a), SetVal(a, k, data))
    case SetVal(a, k, data) =>
      SetEntry(s, CurEntry(s).(val := SetUnion(CurEntry(s).val, Read(s.mem, a, Width(k)))), SetKind(a, k, data))
    case SetKind(a, k, data) =>
      SetEntry(s, CurEntry(s).(kind := k), SetVersion(a, k, data))
    case SetVersion(a, k, data) =>
      SetEntry(s, CurEntry(s).(version := s.version), SyncEntry(a, k, data))
    case SyncEntry(a, k, data) =>
      if s.cur < |s.logPoss| then
        Fence(s.(logPoss := s.logPoss[s.cur := {CurEntry(s)}], cur := s.cur + 1,
                 pc := if data == [] then Session else StoreData(a, data)))
      else s.(fault := true)
    case StoreData(a, bytes) => Store(s, a, bytes).(pc := AddLine(a))
    case AddLine(a) => AddToTable(s, a).(pc := Session)
    case EndFlush => FlushAll(s).(pc := EndBump)
    case EndBump => s.(version := s.version + 1, versionPoss := s.versionPoss + {s.version + 1}, pc := EndSync)
    case EndSync => Fence(s.(versionPoss := {s.version}, pc := Idle, start := s.mem))
    case Seek =>
      var n := SeekEnd(s.log, s.version);
      if n == |s.log| then s.(fault := true) else s.(pc := RecStore(n))
    case RecStore(n) =>
      if n == 0 then s.(pc := RecFlush)
      else if n > |s.log| then s.(fault := true)
      else Store(s, s.log[n - 1].addr, s.log[n - 1].val[..Width(s.log[n - 1].kind)]).(pc := RecAdd(n))
    case RecAdd(n) =>
      if n == 0 || n > |s.log| then s.(fault := true)
      else AddToTable(s, s.log[n - 1].addr).(pc := RecStore(n - 1))
    case RecFlush => FlushAll(s).(pc := RecBump)
    case RecBump => s.(version := s.version + 1, versionPoss := s.versionPoss + {s.version + 1}, pc := RecSync)
    case RecSync => Fence(s.(versionPoss := {s.version}, pc := Idle))
  }

  function CurEntry(s: State): Entry {
    if s.cur < |s.log| then s.log[s.cur] else Entry(0, [0, 0, 0, 0, 0, 0, 0, 0], CHAR, 0)
  }

  // ---------------------------------------------------------------------------------------
  // Invariant
  // ---------------------------------------------------------------------------------------

  predicate Writing(pc: Pc) {
    pc.SetAddr? || pc.SetVal? || pc.SetKind? || pc.SetVersion? || pc.SyncEntry?
  }

  predicate InSession(pc: Pc) {
    Writing(pc) || pc.Session? || pc.StoreData? || pc.AddLine? || pc.EndFlush? || pc.EndBump? || pc.EndSync?
  }

  predicate Bumped(pc: Pc) {
    pc.EndSync? || pc.RecSync?
  }

  // The version of the entries being written or replayed.
  function LogVersion(s: State): int {
    if Bumped(s.pc) then s.version - 1 else s.version
  }

  ghost predicate Persistence(s: State) {
    && s.poss.Keys == s.kept.Keys == s.mem.Keys == s.start.Keys
    && (forall b :: b in s.mem ==> s.mem[b] in s.kept[b] && s.kept[b] <= s.poss[b])
    && s.versionPoss == {s.version} + (if Bumped(s.pc) then {LogVersion(s)} else {})
  }

  // The line a store is about to register.
  predicate AboutToAdd(s: State, line: nat) {
    || (s.pc.AddLine? && LineOf(s.pc.a) == line)
    || (s.pc.RecAdd? && 0 < s.pc.n <= |s.log| && LineOf(s.log[s.pc.n - 1].addr) == line)
  }

  // Every byte a fence would leave undecided is in a line of the flush table.
  ghost predicate TableInv(s: State)
    requires Persistence(s)
  {
    && |s.table| > 0
    && (forall b {:trigger s.kept[b]} :: b in s.mem ==>
          s.kept[b] == {s.mem[b]} || InTable(s.table, LineOf(b)) || AboutToAdd(s, LineOf(b)))
  }

  predicate InTable(table: seq<Line>, line: nat) {
    Slot(table, line) < |table| && table[Slot(table, line)] == Holds(line)
  }

  predicate GoodEntry(s: State, e: Entry) {
    e.version == LogVersion(s) && OneLine(e.addr, Width(e.kind)) && InMem(s.mem, e.addr, Width(e.kind))
  }

  ghost predicate LogInv(s: State) {
    && |s.logPoss| == |s.log| && s.cur <= |s.log|
    && (forall i {:trigger s.logPoss[i]} :: 0 <= i < |s.log| && !(i == s.cur && Writing(s.pc)) ==> s.logPoss[i] == {s.log[i]})
    && (if s.pc.Idle? then forall i {:trigger s.log[i]} :: 0 <= i < |s.log| ==> s.log[i].version < s.version
        else
          && (forall i {:trigger s.log[i]} :: 0 <= i < s.cur ==> GoodEntry(s, s.log[i]))
          && (forall i {:trigger s.log[i]} :: s.cur <= i < |s.log| && !(i == s.cur && s.pc.SyncEntry?) ==> s.log[i].version < LogVersion(s)))
  }

  // The slot being written: whatever a crash leaves of it either has an old version or is complete.
  ghost predicate SlotInv(s: State)
    requires LogInv(s)
  {
    Writing(s.pc) ==>
      && s.cur < |s.log| && OneLine(s.pc.a, Width(s.pc.k)) && InMem(s.mem, s.pc.a, Width(s.pc.k))
      && (s.pc.data == [] || |s.pc.data| == Width(s.pc.k))
      && s.log[s.cur] in s.logPoss[s.cur]
      && (forall e :: e in s.logPoss[s.cur] ==> e.version < s.version || (s.pc.SyncEntry? && e == s.log[s.cur]))
      && var e := s.log[s.cur];
         && (!s.pc.SetAddr? ==> e.addr == s.pc.a)
         && (!s.pc.SetAddr? && !s.pc.SetVal? ==> e.val == SetUnion(e.val, Read(s.mem, s.pc.a, Width(s.pc.k))))
         && (s.pc.SetVersion? || s.pc.SyncEntry? ==> e.kind == s.pc.k)
         && (s.pc.SyncEntry? ==> e.version == s.version)
  }

  // Whatever value of a byte survives a crash, the log brings back the one at the session's start.
  ghost predicate Undoable(s: State, es: seq<Entry>)
    requires Persistence(s)
  {
    forall b, x {:trigger Earliest(es, b, x)} :: b in s.mem && x in s.poss[b] ==> Earliest(es, b, x) == s.start[b]
  }

  ghost predicate Durable(s: State)
    requires Persistence(s)
  {
    forall b {:trigger s.poss[b]} :: b in s.mem ==> s.poss[b] == {s.mem[b]}
  }

  predicate Restored(s: State, es: seq<Entry>) {
    s.mem.Keys == s.start.Keys && forall b {:trigger s.start[b]} :: b in s.mem ==> Earliest(es, b, s.mem[b]) == s.start[b]
  }

  predicate StorePlan(s: State, a: nat, bytes: seq<Byte>)
    requires s.cur <= |s.log|
  {
    InMem(s.mem, a, |bytes|) && OneLine(a, |bytes|) && forall b :: a <= b < a + |bytes| ==> Logged(s.log[..s.cur], b)
  }

  ghost predicate PhaseInv(s: State)
    requires Persistence(s) && LogInv(s)
  {
    && Undoable(s, if s.pc.Idle? then [] else s.log[..s.cur])
    && (s.pc.Idle? || s.pc.EndBump? || s.pc.EndSync? || s.pc.Seek? || s.pc.RecBump? || s.pc.RecSync? ==> Durable(s))
    && (s.pc.StoreData? ==> StorePlan(s, s.pc.a, s.pc.bytes))
    && (s.pc.RecStore? ==> s.pc.n <= s.cur && Restored(s, s.log[..s.pc.n]))
    && (s.pc.RecAdd? ==> 0 < s.pc.n <= s.cur && Restored(s, s.log[..s.pc.n - 1]))
    && (s.pc.Idle? || s.pc.RecFlush? || s.pc.RecBump? || s.pc.RecSync? ==> s.mem == s.start)
  }

  ghost predicate Inv(s: State) {
    !s.fault && Persistence(s) && TableInv(s) && LogInv(s) && SlotInv(s) && PhaseInv(s)
  }

  // --- the earliest logged value ---------------------------------------------------------------------

  lemma {:induction false} EarliestWhenLogged(es: seq<Entry>, b: nat, x: Byte, y: Byte)
    ensures if Logged(es, b) then Earliest(es, b, x) == Earliest(es, b, y) else Earliest(es, b, x) == x
  {
    if es != [] {
      EarliestWhenLogged(es[1..], b, x, y);
      if Logged(es[1..], b) {
        var i :| 0 <= i < |es[1..]| && Covers(es[1..][i], b);
        assert Covers(es[i + 1], b);
      }
      if Logged(es, b) && !Covers(es[0], b) {
        var i :| 0 <= i < |es| && Covers(es[i], b);
        assert Covers(es[1..][i - 1], b);
      }
    }
  }

  // --- steps -------------------------------------------------------------------------------------------

  // A step that leaves memory and flush table alone.
  ghost predicate SameMemory(s: State, s': State) {
    && s'.mem == s.mem && s'.poss == s.poss && s'.kept == s.kept && s'.table == s.table && s'.start.Keys == s.start.Keys
    && s'.version == s.version && s'.versionPoss == s.versionPoss && Bumped(s'.pc) == Bumped(s.pc)
    && !s.pc.AddLine? && !s.pc.RecAdd?
  }

  lemma MemoryStays(s: State, s': State)
    requires Persistence(s) && TableInv(s) && SameMemory(s, s')
    ensures Persistence(s') && TableInv(s') && LogVersion(s') == LogVersion(s)
  {
  }

  // The steps that run off the log: writing one more entry when it is full, and the seek of recovery
  // when all its slots are of the current version.
  predicate Overruns(s: State, a: Act) {
    s.cur >= |s.log| && (a.LogStore? || a.LogOnly? || (a.Step? && s.pc.Seek?))
  }

  lemma Begins(s: State, a: Act)
    requires Inv(s) && Allowed(s, a) && !a.Step? && !a.Crash? && !Overruns(s, a)
    ensures Inv(Do(s, a))
  {
    hide Earliest, Logged, TableInv, Restored, Read, SetUnion;
    var s' := Do(s, a);
    MemoryStays(s, s');
    if a.Start? { assert s.log[..0] == []; }
  }

  // The slot at the cursor gets one more field.
  ghost predicate FieldStep(s: State, e: Entry, s': State) {
    && SameMemory(s, s') && s'.start == s.start && s'.cur == s.cur < |s.log| == |s.logPoss| && !s'.fault
    && s'.log == s.log[s.cur := e] && s'.logPoss == s.logPoss[s.cur := s.logPoss[s.cur] + {e}]
    && Writing(s.pc) && !s.pc.SyncEntry? && Writing(s'.pc) && (s'.pc.SyncEntry? <==> s.pc.SetVersion?)
    && e.version == (if s.pc.SetVersion? then s.version else s.log[s.cur].version)
  }

  lemma FieldLog(s: State, e: Entry, s': State)
    requires LogInv(s) && FieldStep(s, e, s')
    ensures LogInv(s')
  {
  }

  lemma FieldPhase(s: State, e: Entry, s': State)
    requires Persistence(s) && LogInv(s) && PhaseInv(s) && FieldStep(s, e, s') && Persistence(s') && LogInv(s')
    ensures PhaseInv(s')
  {
    hide Persistence, LogInv, Earliest;
    assert s'.log[..s'.cur] == s.log[..s.cur];
  }

  lemma FieldSlot(s: State, e: Entry, s': State)
    requires LogInv(s) && LogInv(s') && SlotInv(s) && !s.fault && Writing(s.pc) && !s.pc.SyncEntry?
    requires s' == StepFrom(s) && FieldStep(s, e, s')
    ensures SlotInv(s')
  {
    hide LogInv, OneLine, InMem;
    assert s'.log[s.cur] == e;
    assert s'.pc.a == s.pc.a && s'.pc.k == s.pc.k && s'.pc.data == s.pc.data;
    if s.pc.SetVal? { UnionIdempotent(s.log[s.cur].val, Read(s.mem, s.pc.a, Width(s.pc.k))); }
    hide SetUnion, Read;
  }

  lemma UnionIdempotent(v: Union, bytes: seq<Byte>)
    ensures SetUnion(SetUnion(v, bytes), bytes) == SetUnion(v, bytes)
  {
  }

  lemma WritesField(s: State)
    requires Inv(s) && Writing(s.pc) && !s.pc.SyncEntry?
    ensures Inv(StepFrom(s))
  {
    var s' := StepFrom(s);
    var e := s'.log[s.cur];
    assert FieldStep(s, e, s') by { hide Persistence, TableInv, PhaseInv, OneLine, InMem, Read, SetUnion; }
    hide *;
    hide Persistence, TableInv, LogInv, SlotInv, PhaseInv;
    MemoryStays(s, s');
    FieldLog(s, e, s');
    FieldPhase(s, e, s');
    FieldSlot(s, e, s');
  }

  // --- the entry becomes durable before the data is stored ----------------------------------------------

  lemma CompleteEntry(s: State, b: nat)
    requires LogInv(s) && SlotInv(s) && s.pc.SyncEntry?
    ensures Covers(s.log[s.cur], b) <==> s.pc.a <= b < s.pc.a + Width(s.pc.k)
    ensures Covers(s.log[s.cur], b) ==> b in s.mem && s.log[s.cur].val[b - s.pc.a] == s.mem[b]
  {
  }

  // A complete entry logs the current value, so the log undoes as much with it as without.
  lemma UndoableWithEntry(s: State, x: Byte, b: nat)
    requires Persistence(s) && LogInv(s) && SlotInv(s) && s.pc.SyncEntry? && Undoable(s, s.log[..s.cur])
    requires b in s.mem && x in s.poss[b]
    ensures Earliest(s.log[..s.cur] + [s.log[s.cur]], b, x) == s.start[b]
  {
    CompleteEntry(s, b);
    EarliestOfMore(s.log[..s.cur], s.log[s.cur], b, x);
    assert s.mem[b] in s.poss[b];
    hide Earliest, SlotInv, LogInv;
  }

  lemma Syncs(s: State)
    requires Inv(s) && s.pc.SyncEntry?
    ensures Inv(StepFrom(s))
  {
    var s', e := StepFrom(s), s.log[s.cur];
    assert SyncLog(s, s');
    hide StepFrom, Earliest;
    assert s.log[..s.cur + 1] == s.log[..s.cur] + [e];
    forall b, x | b in s.mem && x in s'.poss[b] ensures Earliest(s.log[..s.cur + 1], b, x) == s.start[b] {
      UndoableWithEntry(s, x, b);
    }
    assert LogInv(s') by { hide Persistence, TableInv, PhaseInv, Undoable; }
    assert Persistence(s') && TableInv(s');
    hide TableInv;
    if s'.pc.StoreData? {
      forall b | s.pc.a <= b < s.pc.a + Width(s.pc.k) ensures Logged(s'.log[..s'.cur], b) {
        CompleteEntry(s, b);
        assert Covers(s'.log[..s'.cur][s.cur], b);
      }
    }
  }

  ghost predicate SyncLog(s: State, s': State) {
    && s.pc.SyncEntry? && s.cur < |s.log| == |s.logPoss|
    && s' == s.(logPoss := s.logPoss[s.cur := {s.log[s.cur]}], cur := s.cur + 1, poss := s.kept,
                pc := if s.pc.data == [] then Session else StoreData(s.pc.a, s.pc.data))
  }

  // --- data stores and the flush table ---------------------------------------------------------------------

  // The parts of the state that stores and flushes of data leave alone.
  predicate SameBook(s: State, s': State) {
    && s'.log == s.log && s'.cur == s.cur && s'.fault == s.fault && s'.pc == s.pc && s'.start == s.start
    && s'.version == s.version
  }

  lemma DataSteps(s: State, a: nat, bytes: seq<Byte>)
    ensures SameBook(s, Store(s, a, bytes)) && SameBook(s, AddToTable(s, a)) && SameBook(s, FlushAll(s))
  {
  }

  lemma StoreFrame(s: State, a: nat, bytes: seq<Byte>)
    ensures var s' := Store(s, a, bytes); s' == s.(mem := s'.mem, poss := s'.poss, kept := s'.kept)
    ensures Store(s, a, bytes).mem.Keys == s.mem.Keys
  {
  }

  lemma StoresBytes(s: State, a: nat, bytes: seq<Byte>)
    requires Persistence(s) && OneLine(a, |bytes|)
    ensures var s' := Store(s, a, bytes); s'.poss.Keys == s'.kept.Keys == s'.mem.Keys == s.mem.Keys
    ensures forall b {:trigger s.kept[b]} :: b in s.mem ==>
      var s' := Store(s, a, bytes);
      && s'.mem[b] in s'.kept[b] && s'.kept[b] <= s'.poss[b]
      && ((s'.kept[b] == s.kept[b] && s'.mem[b] == s.mem[b]) || LineOf(b) == LineOf(a))
  {
    forall b: nat | Within(a, |bytes|, b) ensures LineOf(b) == LineOf(a) {
    }
    hide LineOf, OneLine;
  }

  lemma StoresMemory(s: State, a: nat, bytes: seq<Byte>, s': State)
    requires Persistence(s) && TableInv(s) && !s.pc.AddLine? && !s.pc.RecAdd?
    requires s' == Store(s, a, bytes).(pc := s'.pc) && Bumped(s'.pc) == Bumped(s.pc) && OneLine(a, |bytes|) && AboutToAdd(s', LineOf(a))
    ensures Persistence(s') && TableInv(s')
  {
    hide Store, LineOf, InTable, OneLine;
    StoreFrame(s, a, bytes);
    StoresBytes(s, a, bytes);
    assert forall b :: b in s.mem ==> s.kept[b] == s.kept[b];
  }

  lemma StoresLogged(s: State, es: seq<Entry>, a: nat, bytes: seq<Byte>, s': State)
    requires Persistence(s) && Undoable(s, es) && forall b :: a <= b < a + |bytes| ==> Logged(es, b)
    requires s' == Store(s, a, bytes).(pc := s'.pc) && Persistence(s')
    ensures Undoable(s', es)
  {
    hide Earliest, Logged;
    forall b, x | b in s.mem && x in s'.poss[b] ensures Earliest(es, b, x) == s.start[b] {
      if x !in s.poss[b] {
        EarliestWhenLogged(es, b, x, s.mem[b]);
        assert s.mem[b] in s.poss[b];
      }
    }
  }

  // A step that leaves the log alone.
  lemma LogStays(s: State, s': State)
    requires LogInv(s) && !Writing(s.pc) && !Writing(s'.pc) && !s.pc.Idle? && !s'.pc.Idle?
    requires s'.log == s.log && s'.logPoss == s.logPoss && s'.cur == s.cur && s'.mem.Keys == s.mem.Keys
    requires LogVersion(s') == LogVersion(s)
    ensures LogInv(s') && SlotInv(s')
  {
  }

  // A data store to logged bytes of one line keeps every part of the invariant but the phase's own.
  lemma StoreKeeps(s: State, a: nat, bytes: seq<Byte>, s': State)
    requires Persistence(s) && TableInv(s) && LogInv(s) && Undoable(s, s.log[..s.cur]) && (s.pc.StoreData? || s.pc.RecStore?)
    requires s' == Store(s, a, bytes).(pc := s'.pc) && (s'.pc.AddLine? || s'.pc.RecAdd?)
    requires OneLine(a, |bytes|) && AboutToAdd(s', LineOf(a)) && forall b :: a <= b < a + |bytes| ==> Logged(s.log[..s.cur], b)
    ensures Persistence(s') && TableInv(s') && LogInv(s') && SlotInv(s') && s'.log == s.log && s'.cur == s.cur
    ensures Undoable(s', s'.log[..s'.cur])
  {
    StoreFrame(s, a, bytes);
    StoresMemory(s, a, bytes, s');
    StoresLogged(s, s.log[..s.cur], a, bytes, s');
    hide Store, Persistence, TableInv, Undoable, LogInv, SlotInv, OneLine, Logged, AboutToAdd;
    LogStays(s, s');
  }

  lemma AfterStore(s: State)
    requires !s.fault && Persistence(s) && TableInv(s) && LogInv(s) && SlotInv(s) && Undoable(s, s.log[..s.cur])
    requires s.pc.AddLine? || (s.pc.RecAdd? && 0 < s.pc.n <= s.cur && Restored(s, s.log[..s.pc.n - 1]))
    ensures Inv(s)
  {
  }

  lemma StoresData(s: State)
    requires Inv(s) && s.pc.StoreData?
    ensures Inv(StepFrom(s))
  {
    var s' := Store(s, s.pc.a, s.pc.bytes).(pc := AddLine(s.pc.a));
    assert StepFrom(s) == s' && StorePlan(s, s.pc.a, s.pc.bytes);
    hide Persistence, TableInv, Undoable, LogInv, SlotInv, Store;
    StoreKeeps(s, s.pc.a, s.pc.bytes, s');
    AfterStore(s');
  }

  lemma TableAfterAdd(s: State, a: nat, line: nat)
    requires |s.table| > 0
    ensures |AddToTable(s, a).table| == |s.table| && InTable(AddToTable(s, a).table, LineOf(a))
    ensures InTable(s.table, line) ==>
      || InTable(AddToTable(s, a).table, line)
      || AddToTable(s, a).kept == FlushLine(s, line).kept
  {
  }

  lemma AddFrame(s: State, a: nat)
    ensures var s' := AddToTable(s, a);
      && s' == s.(kept := s'.kept, table := s'.table) && s'.kept.Keys == s.kept.Keys
      && (forall b :: b in s.mem && b in s.kept ==> s'.kept[b] == s.kept[b] || s'.kept[b] == {s.mem[b]})
  {
    hide LineOf, Slot;
  }

  lemma AddByte(s: State, a: nat, b: nat)
    requires b in s.mem && b in s.kept && |s.table| > 0 && InTable(s.table, LineOf(b))
    ensures InTable(AddToTable(s, a).table, LineOf(b)) || AddToTable(s, a).kept[b] == {s.mem[b]}
  {
  }

  lemma AddsLine(s: State, a: nat, s': State)
    requires Persistence(s) && TableInv(s) && s' == AddToTable(s, a).(pc := s'.pc)
    requires Bumped(s'.pc) == Bumped(s.pc) && forall line :: AboutToAdd(s, line) ==> line == LineOf(a)
    ensures Persistence(s') && TableInv(s') && s'.poss == s.poss && s'.mem == s.mem
  {
    hide AddToTable, LineOf, InTable, AboutToAdd;
    AddFrame(s, a);
    TableAfterAdd(s, a, 0);
    forall b | b in s.mem ensures s'.kept[b] == {s.mem[b]} || InTable(s'.table, LineOf(b)) {
      if InTable(s.table, LineOf(b)) { AddByte(s, a, b); }
    }
  }

  lemma AddsDataLine(s: State)
    requires Inv(s) && s.pc.AddLine?
    ensures Inv(StepFrom(s))
  {
    var s' := StepFrom(s);
    AddFrame(s, s.pc.a);
    AddsLine(s, s.pc.a, s');
    LogStays(s, s');
    hide Persistence, TableInv, Earliest, LogInv, SlotInv, AddToTable;
    assert Undoable(s', s.log[..s.cur]);
    hide Undoable;
  }

  lemma FlushAllByte(s: State, b: nat)
    requires b in s.mem && b in s.kept && (s.kept[b] == {s.mem[b]} || InTable(s.table, LineOf(b)))
    ensures b in FlushAll(s).kept && FlushAll(s).kept[b] == {s.mem[b]}
  {
  }

  lemma FlushAllFrame(s: State)
    ensures var s' := FlushAll(s);
      && s'.mem == s.mem && s'.start == s.start && s'.kept.Keys == s.kept.Keys && s'.poss == s'.kept
      && |s'.table| == |s.table| && s'.version == s.version && s'.versionPoss == s.versionPoss
      && s'.log == s.log && s'.logPoss == s.logPoss && s'.cur == s.cur && s'.fault == s.fault
  {
  }

  lemma FlushesAll(s: State, s': State)
    requires Persistence(s) && TableInv(s) && s' == FlushAll(s).(pc := s'.pc) && Bumped(s'.pc) == Bumped(s.pc)
    requires forall line :: !AboutToAdd(s, line)
    ensures Persistence(s') && TableInv(s') && Durable(s')
  {
    hide LineOf, InTable, AboutToAdd, FlushAll;
    FlushAllFrame(s);
    forall b | b in s.mem ensures s'.kept[b] == {s.mem[b]} {
      assert !AboutToAdd(s, LineOf(b));
      FlushAllByte(s, b);
    }
  }

  // With all stores durable, a log that undid every surviving value undoes the current ones.
  lemma FlushedUndoable(s: State, s': State, es: seq<Entry>)
    requires Persistence(s) && Persistence(s') && Undoable(s, es) && Durable(s') && s'.mem == s.mem && s'.start == s.start
    ensures Undoable(s', es)
  {
  }

  lemma Commits(s: State)
    requires Inv(s) && (s.pc.EndFlush? || s.pc.EndBump?)
    ensures Inv(StepFrom(s))
  {
    var s' := StepFrom(s);
    hide Earliest, LineOf;
    if s.pc.EndFlush? {
      FlushAllFrame(s);
      hide FlushAll;
      FlushesAll(s, s');
      FlushedUndoable(s, s', s.log[..s.cur]);
    }
    LogStays(s, s');
    hide LogInv, SlotInv;
  }

  lemma CommitEnds(s: State)
    requires Inv(s) && s.pc.EndSync?
    ensures Inv(StepFrom(s))
  {
    var s' := StepFrom(s);
    assert Undoable(s', []);
    hide Earliest, LineOf, InMem, OneLine, Undoable;
  }

  // --- recovery --------------------------------------------------------------------------------------------

  lemma {:induction false} SeekIs(log: seq<Entry>, version: nat, n: nat)
    requires n <= |log| && (forall i :: 0 <= i < n ==> log[i].version == version)
    requires n < |log| ==> log[n].version != version
    ensures SeekEnd(log, version) == n
  {
  }

  lemma Seeks(s: State)
    requires Inv(s) && s.pc.Seek? && s.cur < |s.log|
    ensures Inv(StepFrom(s))
  {
    var s' := StepFrom(s);
    SeekIs(s.log, s.version, s.cur);
    MemoryStays(s, s');
    assert Restored(s, s.log[..s.cur]) by {
      forall b | b in s.mem ensures Earliest(s.log[..s.cur], b, s.mem[b]) == s.start[b] {
        assert s.mem[b] in s.poss[b];
      }
    }
    LogStays(s, s');
    hide Persistence, TableInv, LogInv, SlotInv, SeekEnd, Earliest;
    assert Undoable(s', s.log[..s.cur]);
  }

  lemma EntryStored(s: State, n: nat, s': State)
    requires Persistence(s) && 0 < n <= |s.log| && Restored(s, s.log[..n])
    requires var e := s.log[n - 1]; s' == Store(s, e.addr, e.val[..Width(e.kind)]).(pc := s'.pc)
    ensures Restored(s', s.log[..n - 1])
  {
    hide Store, Earliest, Persistence, Restore;
    var e := s.log[n - 1];
    assert s.log[..n] == s.log[..n - 1] + [e];
    StoreIsRestore(s, e);
    forall b | b in s.mem ensures Earliest(s.log[..n - 1], b, s'.mem[b]) == s.start[b] {
      EarliestOfMore(s.log[..n - 1], e, b, s.mem[b]);
      assert Restored(s, s.log[..n]) && Earliest(s.log[..n], b, s.mem[b]) == s.start[b];
    }
  }

  lemma StoreIsRestore(s: State, e: Entry)
    ensures var s' := Store(s, e.addr, e.val[..Width(e.kind)]); s'.mem == Restore(s.mem, e) && s'.start == s.start
    ensures Restore(s.mem, e).Keys == s.mem.Keys
    ensures forall b :: b in s.mem ==> Restore(s.mem, e)[b] == if Covers(e, b) then e.val[b - e.addr] else s.mem[b]
  {
  }

  function Replayed(s: State): State
    requires s.pc.RecStore? && 0 < s.pc.n <= |s.log|
  {
    var e := s.log[s.pc.n - 1];
    Store(s, e.addr, e.val[..Width(e.kind)]).(pc := RecAdd(s.pc.n))
  }

  lemma ReplayPlan(s: State)
    requires LogInv(s) && s.pc.RecStore? && 0 < s.pc.n <= s.cur
    ensures StepFrom(s) == Replayed(s)
    ensures var e := s.log[s.pc.n - 1];
      OneLine(e.addr, Width(e.kind)) && forall b :: e.addr <= b < e.addr + Width(e.kind) ==> Logged(s.log[..s.cur], b)
  {
  }

  // One entry is replayed.  A crash in the middle of it is undone by the same log.
  lemma Replays(s: State)
    requires Inv(s) && s.pc.RecStore? && s.pc.n > 0
    ensures Inv(StepFrom(s))
  {
    var n, e, s' := s.pc.n, s.log[s.pc.n - 1], Replayed(s);
    assert Restored(s, s.log[..n]) && Undoable(s, s.log[..s.cur]) && s.cur <= |s.log|;
    hide Persistence, TableInv, Undoable, LogInv, SlotInv, Store, Restored, StepFrom, PhaseInv, OneLine, Logged;
    ReplayPlan(s);
    StoreFrame(s, e.addr, e.val[..Width(e.kind)]);
    StoreKeeps(s, e.addr, e.val[..Width(e.kind)], s');
    EntryStored(s, n, s');
    AfterStore(s');
  }

  lemma AddsEntryLine(s: State)
    requires Inv(s) && s.pc.RecAdd?
    ensures Inv(StepFrom(s))
  {
    var s' := StepFrom(s);
    AddFrame(s, s.log[s.pc.n - 1].addr);
    AddsLine(s, s.log[s.pc.n - 1].addr, s');
    LogStays(s, s');
    hide Persistence, TableInv, Earliest, LogInv, SlotInv, AddToTable;
    assert Undoable(s', s.log[..s.cur]);
    hide Undoable;
  }

  lemma RecoveryEnds(s: State)
    requires Inv(s) && ((s.pc.RecStore? && s.pc.n == 0) || s.pc.RecFlush? || s.pc.RecBump?)
    ensures Inv(StepFrom(s))
  {
    var s' := StepFrom(s);
    if s.pc.RecStore? {
      assert s.log[..0] == [];
      assert s.mem == s.start;
    }
    hide Earliest, LineOf;
    if s.pc.RecFlush? {
      FlushAllFrame(s);
      hide FlushAll;
      FlushesAll(s, s');
      FlushedUndoable(s, s', s.log[..s.cur]);
    }
    LogStays(s, s');
    hide LogInv, SlotInv;
  }

  lemma RecoveryReturns(s: State)
    requires Inv(s) && s.pc.RecSync?
    ensures Inv(StepFrom(s))
  {
    var s' := StepFrom(s);
    assert Undoable(s', []);
    hide Earliest, LineOf, InMem, OneLine, Undoable;
  }

  // --- crashes ---------------------------------------------------------------------------------------------

  lemma CrashedMemory(s: State, c: Image)
    requires Persistence(s) && TableInv(s) && CrashImage(s, c)
    ensures Persistence(Crashed(s, c)) && TableInv(Crashed(s, c)) && Durable(Crashed(s, c))
    ensures var s' := Crashed(s, c);
      s'.mem == c.mem && s'.log == c.log && s'.pc.Seek? && s'.version == c.version && !s'.fault == !s.fault
    ensures Crashed(s, c).start == if Committed(s, c) then s.mem else s.start
  {
    hide LineOf, SeekEnd, InTable;
  }

  lemma AfterCrash(s: State)
    requires !s.fault && s.pc.Seek? && Persistence(s) && TableInv(s) && Durable(s) && LogInv(s) && SlotInv(s)
    requires forall b {:trigger s.mem[b]} :: b in s.mem ==> Earliest(s.log[..s.cur], b, s.mem[b]) == s.start[b]
    ensures Inv(s)
  {
  }

  lemma CrashedEmptyLog(s: State, c: Image)
    requires LogInv(s) && CrashImage(s, c) && c.version == s.version && (s.pc.Idle? || Bumped(s.pc))
    ensures LogInv(Crashed(s, c)) && SlotInv(Crashed(s, c)) && Crashed(s, c).cur == 0
  {
    forall i | 0 <= i < |s.log| ensures c.log[i].version < c.version {
      assert c.log[i] in s.logPoss[i];
      assert s.log[i].version < s.version;
    }
    SeekIs(c.log, c.version, 0);
    hide OneLine, InMem, SeekEnd;
  }

  // Outside a session, or once the bumped version is in place, recovery finds an empty log.
  lemma CrashWithoutLog(s: State, c: Image)
    requires Inv(s) && CrashImage(s, c) && (s.pc.Idle? || (Bumped(s.pc) && c.version == s.version))
    ensures Inv(Crashed(s, c)) && Crashed(s, c).mem == Crashed(s, c).start && s.mem == c.mem
  {
    var s' := Crashed(s, c);
    forall b | b in c.mem ensures c.mem[b] == s.mem[b] {
      assert s.poss[b] == {s.mem[b]} && c.mem[b] in s.poss[b];
    }
    assert s.mem == c.mem;
    assert s.pc.EndSync? || s.mem == s.start;
    hide Undoable, SeekEnd, SlotInv;
    CrashedEmptyLog(s, c);
    CrashedMemory(s, c);
    assert s'.log[..0] == [];
    hide LogInv, Persistence, TableInv, Durable, Crashed;
    AfterCrash(s');
  }

  // What a crash leaves of the log: the entries known to be durable, and possibly one complete more.
  lemma CrashedLog(s: State, c: Image)
    requires LogInv(s) && SlotInv(s) && CrashImage(s, c) && c.version == LogVersion(s) && !s.pc.Idle?
    ensures c.log[..s.cur] == s.log[..s.cur]
    ensures var n := SeekEnd(c.log, c.version); n == s.cur || (n == s.cur + 1 && s.pc.SyncEntry? && c.log[s.cur] == s.log[s.cur])
  {
    hide OneLine, InMem, Read, SetUnion;
    forall i | 0 <= i < |s.log| && !(i == s.cur && Writing(s.pc)) ensures c.log[i] == s.log[i] {
      assert c.log[i] in s.logPoss[i];
    }
    assert s.cur < |s.log| ==> c.log[s.cur] in s.logPoss[s.cur];
    var whole := s.pc.SyncEntry? && c.log[s.cur] == s.log[s.cur];
    SeekIs(c.log, c.version, if whole then s.cur + 1 else s.cur);
  }

  lemma CrashedLogInv(s: State, c: Image)
    requires LogInv(s) && SlotInv(s) && CrashImage(s, c) && c.version == LogVersion(s) && !s.pc.Idle?
    ensures LogInv(Crashed(s, c)) && SlotInv(Crashed(s, c))
  {
    var s' := Crashed(s, c);
    CrashedLog(s, c);
    hide SeekEnd, OneLine, Read, SetUnion;
    assert InMem(s.mem, 0, 0);
    assert forall a, w :: InMem(s.mem, a, w) ==> InMem(c.mem, a, w);
    hide InMem;
    forall i | s.cur <= i < |s.log| ensures i < s'.cur || c.log[i].version < LogVersion(s) {
      assert c.log[i] in s.logPoss[i];
    }
  }

  lemma CrashUndoable(s: State, c: Image)
    requires Persistence(s) && LogInv(s) && SlotInv(s) && Undoable(s, s.log[..s.cur]) && CrashImage(s, c)
    requires c.version == LogVersion(s) && !s.pc.Idle?
    ensures forall b :: b in c.mem ==> Earliest(c.log[..SeekEnd(c.log, c.version)], b, c.mem[b]) == s.start[b]
  {
    CrashedLog(s, c);
    var n := SeekEnd(c.log, c.version);
    assert n > s.cur ==> c.log[..n] == s.log[..s.cur] + [s.log[s.cur]];
    hide SeekEnd, Earliest;
    forall b | b in c.mem ensures Earliest(c.log[..n], b, c.mem[b]) == s.start[b] {
      if n > s.cur { UndoableWithEntry(s, c.mem[b], b); }
    }
  }

  lemma CrashWithLog(s: State, c: Image)
    requires Inv(s) && CrashImage(s, c) && !s.pc.Idle? && (Bumped(s.pc) ==> c.version != s.version)
    ensures Inv(Crashed(s, c)) && Crashed(s, c).start == s.start
  {
    var s' := Crashed(s, c);
    assert c.version == LogVersion(s) && Undoable(s, s.log[..s.cur]);
    hide LogInv, SlotInv, SeekEnd, TableInv, Undoable, PhaseInv;
    CrashUndoable(s, c);
    CrashedLogInv(s, c);
    CrashedMemory(s, c);
    assert s'.cur == SeekEnd(c.log, c.version);
    hide Crashed, Persistence, CrashImage, Durable;
    AfterCrash(s');
  }

  // --- runs ----------------------------------------------------------------------------------------------------

  // A step keeps the invariant exactly if it does not run off the log.
  lemma StepKeepsIff(s: State, a: Act)
    requires Inv(s) && Allowed(s, a)
    ensures Inv(Do(s, a)) <==> !Overruns(s, a)
    ensures Do(s, a).fault <==> Overruns(s, a)
  {
    hide Inv, StepFrom;
    if Overruns(s, a) {
      OverrunFaults(s, a);
    } else {
      StepKeeps(s, a);
      NoFault(Do(s, a));
    }
  }

  lemma NoFault(s: State)
    ensures Inv(s) ==> !s.fault
  {
  }

  lemma OverrunFaults(s: State, a: Act)
    requires Inv(s) && Allowed(s, a) && Overruns(s, a)
    ensures Do(s, a).fault && !Inv(Do(s, a))
  {
    if s.pc.Seek? { SeekIs(s.log, s.version, s.cur); }
  }

  lemma StepKeeps(s: State, a: Act)
    requires Inv(s) && Allowed(s, a) && !Overruns(s, a)
    ensures Inv(Do(s, a))
  {
    hide Inv, StepFrom;
    if a.Crash? {
      if s.pc.Idle? || (Bumped(s.pc) && a.image.version == s.version) { CrashWithoutLog(s, a.image); } else { CrashWithLog(s, a.image); }
    } else if !a.Step? {
      Begins(s, a);
    } else {
      match s.pc
      case SetAddr(_, _, _) => WritesField(s);
      case SetVal(_, _, _) => WritesField(s);
      case SetKind(_, _, _) => WritesField(s);
      case SetVersion(_, _, _) => WritesField(s);
      case SyncEntry(_, _, _) => Syncs(s);
      case StoreData(_, _) => StoresData(s);
      case AddLine(_) => AddsDataLine(s);
      case EndFlush => Commits(s);
      case EndBump => Commits(s);
      case EndSync => CommitEnds(s);
      case Seek => Seeks(s);
      case RecStore(n) => if n > 0 { Replays(s); } else { RecoveryEnds(s); }
      case RecAdd(_) => AddsEntryLine(s);
      case RecFlush => RecoveryEnds(s);
      case RecBump => RecoveryEnds(s);
      case RecSync => RecoveryReturns(s);
    }
  }

  // MAK_init_persistent_logs: a zeroed log and version 1.
  function Init(mem: Mem, slots: nat, lines: nat): State {
    var zero := Entry(0, [0, 0, 0, 0, 0, 0, 0, 0], INTEGER, 0);
    State(mem, map b | b in mem :: {mem[b]}, map b | b in mem :: {mem[b]},
          seq(slots, _ => zero), seq(slots, _ => {zero}), 1, {1}, seq(lines, _ => Empty), 0, Idle, false, mem)
  }

  lemma InitInv(mem: Mem, slots: nat, lines: nat)
    requires slots > 0 && lines > 0
    ensures Inv(Init(mem, slots, lines))
  {
  }

  predicate Run(tr: seq<State>, acts: seq<Act>, mem: Mem, slots: nat, lines: nat) {
    && |tr| == |acts| + 1 && slots > 0 && lines > 0 && tr[0] == Init(mem, slots, lines)
    && (forall i :: 0 <= i < |acts| ==> Allowed(tr[i], acts[i]) && tr[i + 1] == Do(tr[i], acts[i]))
  }

  // In every run the invariant holds as long as no step ran off the log, and only then.
  lemma {:induction false} RunKeepsIff(tr: seq<State>, acts: seq<Act>, mem: Mem, slots: nat, lines: nat, i: nat)
    requires Run(tr, acts, mem, slots, lines) && i < |tr|
    ensures Inv(tr[i]) <==> forall j :: 0 <= j < i ==> !Overruns(tr[j], acts[j])
    ensures Inv(tr[i]) <==> !tr[i].fault
  {
    hide Inv, Do, Allowed, Overruns;
    if i == 0 {
      InitInv(mem, slots, lines);
      NoFault(tr[0]);
    } else {
      RunKeepsIff(tr, acts, mem, slots, lines, i - 1);
      if Inv(tr[i - 1]) {
        StepKeepsIff(tr[i - 1], acts[i - 1]);
      } else {
        FaultStays(tr[i - 1], acts[i - 1]);
        NoFault(tr[i]);
      }
    }
  }

  // What a step other than one of writing an entry does to the rest of the state.
  predicate Frame(s: State, s': State) {
    && s'.log == s.log && s'.cur == s.cur && (s.fault ==> s'.fault) && !Writing(s'.pc)
    && (s.pc.EndSync? || s'.start == s.start) && (s.pc.EndSync? ==> s'.pc.Idle?)
    && (InSession(s.pc) ==> InSession(s'.pc) || s'.pc.Idle?) && (InRecovery(s.pc) ==> InRecovery(s'.pc) || s'.pc.Idle?)
  }

  lemma StepFrame(s: State)
    requires !s.pc.Idle? && !s.pc.Session? && !Writing(s.pc)
    ensures Frame(s, StepFrom(s))
  {
    hide StepFrom;
    if InRecovery(s.pc) { RecoveryFrame(s); } else { SessionFrame(s); }
  }

  lemma SessionFrame(s: State)
    requires s.pc.StoreData? || s.pc.AddLine? || s.pc.EndFlush? || s.pc.EndBump? || s.pc.EndSync?
    ensures Frame(s, StepFrom(s))
  {
    hide Store, AddToTable, FlushAll, SeekEnd, SetEntry;
    match s.pc
    case StoreData(a, bytes) => DataSteps(s, a, bytes);
    case AddLine(a) => DataSteps(s, a, []);
    case EndFlush => DataSteps(s, 0, []);
    case _ =>
  }

  lemma RecoveryFrame(s: State)
    requires InRecovery(s.pc)
    ensures Frame(s, StepFrom(s))
  {
    hide StepFrom;
    if s.pc.RecStore? || s.pc.RecAdd? { ReplayFrame(s); } else { EndFrame(s); }
  }

  lemma ReplayFrame(s: State)
    requires s.pc.RecStore? || s.pc.RecAdd?
    ensures Frame(s, StepFrom(s))
  {
    hide Store, AddToTable, FlushAll, SeekEnd, SetEntry;
    if 0 < s.pc.n <= |s.log| {
      var e := s.log[s.pc.n - 1];
      DataSteps(s, e.addr, e.val[..Width(e.kind)]);
    }
  }

  lemma EndFrame(s: State)
    requires s.pc.Seek? || s.pc.RecFlush? || s.pc.RecBump? || s.pc.RecSync?
    ensures Frame(s, StepFrom(s))
  {
    hide Store, AddToTable, FlushAll, SeekEnd, SetEntry;
    DataSteps(s, 0, []);
  }

  lemma FaultStays(s: State, a: Act)
    requires Allowed(s, a) && s.fault
    ensures Do(s, a).fault
  {
    hide StepFrom, CrashImage, Logged, InMem, OneLine, SeekEnd;
    if a.Step? { FaultStaysInStep(s); }
  }

  lemma FaultStaysInStep(s: State)
    requires s.fault && !s.pc.Idle? && !s.pc.Session?
    ensures StepFrom(s).fault
  {
    hide StepFrom;
    if Writing(s.pc) { WritesEntry(s); } else { StepFrame(s); }
  }

  // Between sessions the memory is the one recovery would bring back, and all of it is durable.
  lemma QuiescentIsDurable(tr: seq<State>, acts: seq<Act>, mem: Mem, slots: nat, lines: nat, i: nat)
    requires Run(tr, acts, mem, slots, lines) && i < |tr| && tr[i].pc.Idle? && !tr[i].fault
    ensures tr[i].mem == tr[i].start && forall c :: CrashImage(tr[i], c) ==> c.mem == tr[i].mem
  {
    RunKeepsIff(tr, acts, mem, slots, lines, i);
    hide Run;
    forall c | CrashImage(tr[i], c) ensures c.mem == tr[i].mem { CrashWithoutLog(tr[i], c); }
  }

  predicate InRecovery(pc: Pc) {
    pc.Seek? || pc.RecStore? || pc.RecAdd? || pc.RecFlush? || pc.RecBump? || pc.RecSync?
  }

  lemma SessionPhase(s: State, a: Act)
    requires Allowed(s, a) && !a.Crash? && (a.Start? || InSession(s.pc)) && LogInv(s) && SlotInv(s)
    ensures InSession(Do(s, a).pc) || Do(s, a).pc.Idle?
    ensures Do(s, a).pc.Idle? || Do(s, a).start == if a.Start? then s.mem else s.start
  {
    hide LogInv, SlotInv, StepFrom, OneLine, InMem, Logged;
    if a.Step? { SessionAdvance(s); }
  }

  lemma SessionAdvance(s: State)
    requires InSession(s.pc) && !s.pc.Session?
    ensures InSession(StepFrom(s).pc) || StepFrom(s).pc.Idle?
    ensures StepFrom(s).pc.Idle? || StepFrom(s).start == s.start
  {
    hide StepFrom;
    if Writing(s.pc) { WritesEntry(s); } else { StepFrame(s); }
  }

  // While a session runs, `start` is the memory it started from.
  lemma {:induction false} SessionStart(tr: seq<State>, acts: seq<Act>, mem: Mem, slots: nat, lines: nat, i: nat, j: nat)
    requires Run(tr, acts, mem, slots, lines) && i < j <= |acts| && acts[i].Start?
    requires forall m :: i < m < j ==> !acts[m].Crash? && !tr[m].pc.Idle?
    requires !tr[j - 1].fault
    ensures InSession(tr[j].pc) || tr[j].pc.Idle?
    ensures tr[j].pc.Idle? || tr[j].start == tr[i].mem
  {
    hide Do, Inv, Allowed;
    RunKeepsIff(tr, acts, mem, slots, lines, j - 1);
    if i + 1 < j {
      if tr[j - 2].fault { FaultStays(tr[j - 2], acts[j - 2]); }
      SessionStart(tr, acts, mem, slots, lines, i, j - 1);
    }
    SessionStep(tr[j - 1], acts[j - 1]);
  }

  lemma SessionStep(s: State, a: Act)
    requires Inv(s) && Allowed(s, a) && !a.Crash? && (a.Start? || InSession(s.pc))
    ensures InSession(Do(s, a).pc) || Do(s, a).pc.Idle?
    ensures Do(s, a).pc.Idle? || Do(s, a).start == if a.Start? then s.mem else s.start
    ensures a.Start? ==> s.pc.Idle?
  {
    hide Do, LogInv, SlotInv, PhaseInv;
    SessionPhase(s, a);
  }

  lemma {:induction false} RecoveryKeepsStart(tr: seq<State>, acts: seq<Act>, mem: Mem, slots: nat, lines: nat, i: nat, j: nat)
    requires Run(tr, acts, mem, slots, lines) && i < j <= |acts| && acts[i].Crash?
    requires forall m :: i < m < j ==> !tr[m].pc.Idle?
    ensures InRecovery(tr[j].pc) || tr[j].pc.Idle?
    ensures tr[j].start == if Committed(tr[i], acts[i].image) then tr[i].mem else tr[i].start
  {
    hide Do, Allowed, Committed;
    if i + 1 < j {
      RecoveryKeepsStart(tr, acts, mem, slots, lines, i, j - 1);
      RecoveryStep(tr[j - 1], acts[j - 1]);
    } else {
      CrashStart(tr[i], acts[i]);
    }
  }

  lemma CrashStart(s: State, a: Act)
    requires Allowed(s, a) && a.Crash?
    ensures Do(s, a).pc.Seek? && Do(s, a).start == if Committed(s, a.image) then s.mem else s.start
  {
  }

  lemma RecoveryStep(s: State, a: Act)
    requires Allowed(s, a) && InRecovery(s.pc)
    ensures InRecovery(Do(s, a).pc) || Do(s, a).pc.Idle?
    ensures Do(s, a).start == s.start
  {
    hide StepFrom, CrashImage;
    StepFrame(s);
  }

  lemma {:induction false} FaultsBefore(tr: seq<State>, acts: seq<Act>, mem: Mem, slots: nat, lines: nat, i: nat, k: nat)
    requires Run(tr, acts, mem, slots, lines) && i <= k < |tr| && !tr[k].fault
    ensures !tr[i].fault
  {
    hide Do, Allowed;
    if i < k {
      if tr[k - 1].fault { FaultStays(tr[k - 1], acts[k - 1]); }
      FaultsBefore(tr, acts, mem, slots, lines, i, k - 1);
    }
  }

  function Written(m: Mem, a: nat, bytes: seq<Byte>): Mem {
    map b | b in m :: if Within(a, |bytes|, b) then bytes[b - a] else m[b]
  }

  // The stores that a session asks for.
  function StoredBy(m: Mem, a: Act): Mem {
    match a
    case LogStore(p, _, bytes) => Written(m, p, bytes)
    case NoLogStore(p, bytes) => Written(m, p, bytes)
    case _ => m
  }

  // The bytes of all stores among steps i up to j, written in order.
  function Stored(m: Mem, acts: seq<Act>, i: nat, j: nat): Mem
    requires i <= j <= |acts|
  {
    if i == j then m else StoredBy(Stored(m, acts, i, j - 1), acts[j - 1])
  }

  // The memory once the store under way, if there is one, is made.
  function Outcome(s: State): Mem {
    if s.pc.StoreData? then Written(s.mem, s.pc.a, s.pc.bytes)
    else if Writing(s.pc) then Written(s.mem, s.pc.a, s.pc.data)
    else s.mem
  }

  lemma NothingWritten(m: Mem, a: nat)
    ensures Written(m, a, []) == m
  {
  }

  // Only the stores asked for change the outcome of a session.
  lemma StepStores(s: State, a: Act)
    requires Allowed(s, a) && !a.Crash? && (a.Start? || InSession(s.pc)) && !Do(s, a).fault
    ensures Outcome(Do(s, a)) == StoredBy(Outcome(s), a)
  {
    hide StepFrom, Written, Logged, InMem, OneLine;
    match a
    case LogOnly(p, _) => NothingWritten(s.mem, p);
    case Step => if Writing(s.pc) { EntryStores(s); } else { SessionStores(s); }
    case _ =>
  }

  lemma EntryStores(s: State)
    requires Writing(s.pc) && !StepFrom(s).fault
    ensures Outcome(StepFrom(s)) == Outcome(s)
  {
    hide Written, Read, SetUnion, CurEntry, SetEntry;
    var e := CurEntry(s);
    match s.pc
    case SetAddr(a, k, data) => SetEntryFrame(s, e.(addr := a), SetVal(a, k, data));
    case SetVal(a, k, data) => SetEntryFrame(s, e.(val := SetUnion(e.val, Read(s.mem, a, Width(k)))), SetKind(a, k, data));
    case SetKind(a, k, data) => SetEntryFrame(s, e.(kind := k), SetVersion(a, k, data));
    case SetVersion(a, k, data) => SetEntryFrame(s, e.(version := s.version), SyncEntry(a, k, data));
    case SyncEntry(a, _, _) => NothingWritten(s.mem, a);
  }

  lemma SessionStores(s: State)
    requires InSession(s.pc) && !s.pc.Session? && !Writing(s.pc)
    ensures Outcome(StepFrom(s)) == Outcome(s)
  {
    hide CurEntry, SetEntry, SeekEnd, SetUnion, Read, Slot, LineOf;
  }

  // A session that has run without a crash or an overrun from its start at step i to step j: its outcome is
  // the memory it started from with the bytes of its stores written in order.
  lemma {:induction false} SessionWrites(tr: seq<State>, acts: seq<Act>, mem: Mem, slots: nat, lines: nat, i: nat, j: nat)
    requires Run(tr, acts, mem, slots, lines) && i < j <= |acts| && acts[i].Start? && !tr[j].fault
    requires forall m :: i < m < j ==> !acts[m].Crash? && !tr[m].pc.Idle?
    ensures Outcome(tr[j]) == Stored(tr[i].mem, acts, i, j)
    ensures tr[j].pc.Idle? || tr[j].pc.EndSync? ==> tr[j].mem == Stored(tr[i].mem, acts, i, j)
  {
    hide Do, Allowed, Outcome, StoredBy;
    FaultsBefore(tr, acts, mem, slots, lines, j - 1, j);
    if i + 1 < j {
      FaultsBefore(tr, acts, mem, slots, lines, j - 2, j);
      SessionWrites(tr, acts, mem, slots, lines, i, j - 1);
      SessionStart(tr, acts, mem, slots, lines, i, j - 1);
    } else {
      StartsClean(tr[i], acts[i]);
      assert Stored(tr[i].mem, acts, i, i) == tr[i].mem;
    }
    StepStores(tr[j - 1], acts[j - 1]);
    OutcomeIsMemory(tr[j]);
  }

  lemma StartsClean(s: State, a: Act)
    requires Allowed(s, a) && a.Start?
    ensures Outcome(s) == s.mem
  {
  }

  lemma OutcomeIsMemory(s: State)
    ensures s.pc.Idle? || s.pc.EndSync? ==> Outcome(s) == s.mem
  {
  }

  // A session that runs from step i to its end at step j leaves its stores in memory, durably.
  lemma SessionCommits(tr: seq<State>, acts: seq<Act>, mem: Mem, slots: nat, lines: nat, i: nat, j: nat)
    requires Run(tr, acts, mem, slots, lines) && i < j <= |acts| && acts[i].Start? && tr[j].pc.Idle? && !tr[j].fault
    requires forall m :: i < m < j ==> !acts[m].Crash? && !tr[m].pc.Idle?
    ensures tr[j].mem == Stored(tr[i].mem, acts, i, j)
    ensures forall c :: CrashImage(tr[j], c) ==> c.mem == Stored(tr[i].mem, acts, i, j)
  {
    hide Do, Allowed, CrashImage;
    SessionWrites(tr, acts, mem, slots, lines, i, j);
    QuiescentIsDurable(tr, acts, mem, slots, lines, j);
  }

  // The session started at step i is hit by a crash at step j and recovery, itself crashing any
  // number of times, finishes at step k: the memory is the one at the session's start if the bumped
  // version did not survive, and that with all stores of the session written if it did.  No step ran off
  // the log, which is what `fault` records (`RunKeepsIff`, `SeekStaysInLogIff`).
  lemma SessionIsAtomic(tr: seq<State>, acts: seq<Act>, mem: Mem, slots: nat, lines: nat, i: nat, j: nat, k: nat)
    requires Run(tr, acts, mem, slots, lines) && i < j < k <= |acts| && acts[i].Start? && acts[j].Crash?
    requires forall m :: i < m < j ==> !acts[m].Crash? && !tr[m].pc.Idle?
    requires forall m :: j <= m < k ==> !tr[m].pc.Idle?
    requires tr[k].pc.Idle? && !tr[k].fault
    ensures tr[k].mem ==
      if tr[j].pc.EndSync? && acts[j].image.version == tr[j].version then Stored(tr[i].mem, acts, i, j) else tr[i].mem
  {
    hide Do, Allowed, Init;
    FaultsBefore(tr, acts, mem, slots, lines, j - 1, k);
    FaultsBefore(tr, acts, mem, slots, lines, j, k);
    SessionWrites(tr, acts, mem, slots, lines, i, j);
    hide Run;
    SessionStart(tr, acts, mem, slots, lines, i, j);
    RecoveryKeepsStart(tr, acts, mem, slots, lines, j, k);
    QuiescentIsDurable(tr, acts, mem, slots, lines, k);
  }

  // An undisturbed recovery ends.
  function StepsLeft(s: State): nat {
    match s.pc
    case Seek => 2 * |s.log| + 5
    case RecStore(n) => 2 * n + 4
    case RecAdd(n) => 2 * n + 3
    case RecFlush => 3
    case RecBump => 2
    case RecSync => 1
    case _ => 0
  }

  lemma RecoveryAdvances(s: State)
    requires Inv(s) && InRecovery(s.pc) && !Overruns(s, Step)
    ensures StepsLeft(StepFrom(s)) < StepsLeft(s) && (StepsLeft(s) == 1 <==> StepFrom(s).pc.Idle?)
  {
    hide Persistence, TableInv, SlotInv, OneLine, InMem, LineOf, Restored, Undoable, Store, AddToTable, FlushAll, SeekEnd;
    if s.pc.Seek? { SeekIs(s.log, s.version, s.cur); }
    if s.pc.RecAdd? { AddFrame(s, s.log[s.pc.n - 1].addr); }
    if s.pc.RecStore? && s.pc.n > 0 { ReplayPlan(s); }
    if s.pc.RecFlush? { FlushAllFrame(s); }
  }

  // It computes the replay of the entries it finds, which is the memory wanted.
  lemma ReplayIsStart(s: State)
    requires Inv(s) && s.pc.Seek?
    ensures Replay(s.mem, s.log[..SeekEnd(s.log, s.version)]) == s.start
  {
    SeekIs(s.log, s.version, s.cur);
    var es := s.log[..s.cur];
    forall b | b in s.mem ensures Replay(s.mem, es).Keys == s.mem.Keys && Replay(s.mem, es)[b] == s.start[b] {
      ReplayIsEarliest(s.mem, es, b);
      assert s.mem[b] in s.poss[b];
    }
    ReplayKeys(s.mem, es);
  }

  lemma {:induction false} ReplayKeys(m: Mem, es: seq<Entry>)
    ensures Replay(m, es).Keys == m.Keys
  {
    if es != [] { ReplayKeys(Restore(m, es[|es| - 1]), es[..|es| - 1]); }
  }

  // --- a full log ------------------------------------------------------------------------------------------------

  predicate Logs(a: Act) {
    a.LogStore? || a.LogOnly?
  }

  // The entries that steps i up to j began to log.
  function EntriesLogged(acts: seq<Act>, i: nat, j: nat): nat
    requires i <= j <= |acts|
  {
    if i == j then 0 else EntriesLogged(acts, i, j - 1) + if Logs(acts[j - 1]) then 1 else 0
  }

  // The entries a session has begun: those before the cursor and the one being written.
  function Begun(s: State): nat {
    s.cur + if Writing(s.pc) then 1 else 0
  }

  lemma SessionBegins(s: State, a: Act)
    requires Allowed(s, a) && !a.Crash? && (a.Start? || InSession(s.pc)) && !Do(s, a).fault
    ensures a.Start? ==> s.pc.Idle?
    ensures !Do(s, a).pc.Idle? ==> Begun(Do(s, a)) == (if a.Start? then 0 else Begun(s)) + if Logs(a) then 1 else 0
  {
    hide StepFrom, Logged, InMem, OneLine;
    if a.Step? { BegunInStep(s); }
  }

  lemma BegunInStep(s: State)
    requires InSession(s.pc) && !s.pc.Session? && !StepFrom(s).fault
    ensures !StepFrom(s).pc.Idle? ==> Begun(StepFrom(s)) == Begun(s)
  {
    hide StepFrom;
    if Writing(s.pc) { BegunWriting(s); } else { StepFrame(s); }
  }

  lemma BegunWriting(s: State)
    requires Writing(s.pc) && !StepFrom(s).fault
    ensures Begun(StepFrom(s)) == Begun(s)
  {
    WritesEntry(s);
    hide StepFrom;
  }

  // What one step of writing an entry does besides the log itself.
  lemma WritesEntry(s: State)
    requires Writing(s.pc)
    ensures var s' := StepFrom(s);
      && |s'.log| == |s.log| && (s.fault ==> s'.fault) && InSession(s'.pc) && s'.start == s.start
      && (s'.fault || s'.cur == if s.pc.SyncEntry? then s.cur + 1 else s.cur)
      && (s'.fault || (Writing(s'.pc) <==> !s.pc.SyncEntry?))
  {
    hide Read, SetUnion, CurEntry, Store, AddToTable, FlushAll, SetEntry;
    var e := CurEntry(s);
    match s.pc
    case SetAddr(a, k, data) => SetEntryFrame(s, e.(addr := a), SetVal(a, k, data));
    case SetVal(a, k, data) => SetEntryFrame(s, e.(val := SetUnion(e.val, Read(s.mem, a, Width(k)))), SetKind(a, k, data));
    case SetKind(a, k, data) => SetEntryFrame(s, e.(kind := k), SetVersion(a, k, data));
    case SetVersion(a, k, data) => SetEntryFrame(s, e.(version := s.version), SyncEntry(a, k, data));
    case SyncEntry(_, _, _) =>
  }

  lemma SetEntryFrame(s: State, e: Entry, pc: Pc)
    ensures var s' := SetEntry(s, e, pc);
      |s'.log| == |s.log| && (s.fault ==> s'.fault) && s'.start == s.start && s'.mem == s.mem && (s'.pc == pc || s'.pc == s.pc) && (s'.fault || (s'.cur == s.cur && s'.pc == pc))
  {
  }

  lemma {:induction false} SessionEntries(tr: seq<State>, acts: seq<Act>, mem: Mem, slots: nat, lines: nat, i: nat, j: nat)
    requires Run(tr, acts, mem, slots, lines) && i < j <= |acts| && acts[i].Start? && !tr[j].fault
    requires forall m :: i < m < j ==> !acts[m].Crash? && !tr[m].pc.Idle?
    ensures tr[j].pc.Idle? || Begun(tr[j]) == EntriesLogged(acts, i, j)
  {
    hide Do, Allowed, Begun;
    FaultsBefore(tr, acts, mem, slots, lines, j - 1, j);
    if i + 1 < j {
      FaultsBefore(tr, acts, mem, slots, lines, j - 2, j);
      SessionEntries(tr, acts, mem, slots, lines, i, j - 1);
      SessionStart(tr, acts, mem, slots, lines, i, j - 1);
    }
    SessionBegins(tr[j - 1], acts[j - 1]);
  }

  lemma {:induction false} LogLength(tr: seq<State>, acts: seq<Act>, mem: Mem, slots: nat, lines: nat, i: nat)
    requires Run(tr, acts, mem, slots, lines) && i < |tr|
    ensures |tr[i].log| == slots
  {
    hide Do, Allowed;
    if i > 0 {
      LogLength(tr, acts, mem, slots, lines, i - 1);
      SameLength(tr[i - 1], acts[i - 1]);
    }
  }

  lemma SameLength(s: State, a: Act)
    requires Allowed(s, a)
    ensures |Do(s, a).log| == |s.log|
  {
    hide StepFrom, Logged, InMem, OneLine, SeekEnd;
    if a.Step? { SameLengthInStep(s); }
  }

  lemma SameLengthInStep(s: State)
    requires !s.pc.Idle? && !s.pc.Session?
    ensures |StepFrom(s).log| == |s.log|
  {
    hide StepFrom;
    if Writing(s.pc) { WritesEntry(s); } else { StepFrame(s); }
  }

  // The crash leaves as many entries of the interrupted session as the log has slots: all that were
  // begun, the one being written included, unless the bumped version survives.
  ghost predicate LeavesFullLog(s: State, c: Image) {
    && Begun(s) == |c.log| > 0 && !Committed(s, c)
    && (Writing(s.pc) ==> c.log[|c.log| - 1].version == s.version)
  }

  // A session begun at step i is hit by a crash at step j: the seek of recovery runs off the log
  // exactly if the session has begun as many entries as the log has slots and all of them survive.
  lemma SeekStaysInLogIff(tr: seq<State>, acts: seq<Act>, mem: Mem, slots: nat, lines: nat, i: nat, j: nat)
    requires Run(tr, acts, mem, slots, lines) && i < j < |acts| && acts[i].Start? && acts[j].Crash? && !tr[j].fault
    requires (forall m :: i < m < j ==> !acts[m].Crash? && !tr[m].pc.Idle?) && !tr[j].pc.Idle?
    ensures var c := acts[j].image;
      && tr[j + 1].pc.Seek? && |c.log| == slots > 0
      && (StepFrom(tr[j + 1]).fault <==>
            && EntriesLogged(acts, i, j) == slots && !(tr[j].pc.EndSync? && c.version == tr[j].version)
            && (Writing(tr[j].pc) ==> c.log[slots - 1].version == tr[j].version))
  {
    hide Inv, Persistence, StepFrom, SeekEnd, EntriesLogged;
    SessionEntries(tr, acts, mem, slots, lines, i, j);
    FaultsBefore(tr, acts, mem, slots, lines, j - 1, j);
    SessionStart(tr, acts, mem, slots, lines, i, j);
    LogLength(tr, acts, mem, slots, lines, j);
    RunKeepsIff(tr, acts, mem, slots, lines, j);
    FullLogCrash(tr[j], acts[j].image);
  }

  lemma FullLogCrash(s: State, c: Image)
    requires Inv(s) && CrashImage(s, c) && InSession(s.pc) && |s.log| > 0
    ensures Crashed(s, c).pc.Seek? && (StepFrom(Crashed(s, c)).fault <==> LeavesFullLog(s, c))
  {
    hide TableInv, PhaseInv, OneLine, InMem, SeekEnd, Read, SetUnion;
    if Committed(s, c) {
      assert c.log[0] in s.logPoss[0];
    } else {
      CrashedLog(s, c);
    }
  }

  const ONE_BYTE: Mem := map[0 := 7]

  // A log of one slot, over one byte that is never changed.
  function OneSlot(e: Entry, poss: set<Entry>, cur: nat, pc: Pc, fault: bool): State {
    State(ONE_BYTE, map[0 := {7}], map[0 := {7}], [e], [poss], 1, {1}, [Empty], cur, pc, fault, ONE_BYTE)
  }

  lemma OneSlotField(e: Entry, poss: set<Entry>, pc: Pc, e': Entry, pc': Pc)
    ensures SetEntry(OneSlot(e, poss, 0, pc, false), e', pc') == OneSlot(e', poss + {e'}, 0, pc', false)
  {
    assert [e][0 := e'] == [e'] && [poss][0 := poss + {e'}] == [poss + {e'}];
  }

  // The actions of the first entry: address, value, kind and version are set, then synced.
  lemma OneEntry(e0: Entry, e1: Entry, e2: Entry, e3: Entry) returns (ss: seq<State>)
    requires e0 == Entry(0, [0, 0, 0, 0, 0, 0, 0, 0], INTEGER, 0) && e1 == e0.(val := [7, 0, 0, 0, 0, 0, 0, 0])
    requires e2 == e1.(kind := CHAR) && e3 == e2.(version := 1)
    ensures |ss| == 6 && ss[0] == OneSlot(e0, {e0}, 0, SetAddr(0, CHAR, []), false) && ss[5] == OneSlot(e3, {e3}, 1, Session, false)
    ensures forall i :: 0 <= i < 5 ==> Writing(ss[i].pc) && ss[i + 1] == StepFrom(ss[i])
  {
    hide SetEntry, Read, SetUnion, StepFrom, OneSlot;
    var p1 := {e0} + {e0};
    var p2 := p1 + {e1};
    var p3 := p2 + {e2};
    var p4 := p3 + {e3};
    OneSlotAddr(e0, {e0});
    OneSlotVal(e0, p1, e1);
    OneSlotKind(e1, p2);
    OneSlotVersion(e2, p3);
    OneSlotSync(e3, p4);
    ss := [OneSlot(e0, {e0}, 0, SetAddr(0, CHAR, []), false), OneSlot(e0, p1, 0, SetVal(0, CHAR, []), false),
           OneSlot(e1, p2, 0, SetKind(0, CHAR, []), false), OneSlot(e2, p3, 0, SetVersion(0, CHAR, []), false),
           OneSlot(e3, p4, 0, SyncEntry(0, CHAR, []), false), OneSlot(e3, {e3}, 1, Session, false)];
  }

  lemma OneSlotAddr(e: Entry, poss: set<Entry>)
    requires e.addr == 0
    ensures var s := OneSlot(e, poss, 0, SetAddr(0, CHAR, []), false);
      Writing(s.pc) && StepFrom(s) == OneSlot(e, poss + {e}, 0, SetVal(0, CHAR, []), false)
  {
    hide SetEntry;
    OneSlotField(e, poss, SetAddr(0, CHAR, []), e, SetVal(0, CHAR, []));
  }

  lemma OneSlotVal(e: Entry, poss: set<Entry>, e': Entry)
    requires e.val == [0, 0, 0, 0, 0, 0, 0, 0] && e' == e.(val := [7, 0, 0, 0, 0, 0, 0, 0])
    ensures var s := OneSlot(e, poss, 0, SetVal(0, CHAR, []), false);
      Writing(s.pc) && StepFrom(s) == OneSlot(e', poss + {e'}, 0, SetKind(0, CHAR, []), false)
  {
    hide SetEntry;
    assert Read(ONE_BYTE, 0, 1) == [7];
    assert SetUnion(e.val, [7]) == e'.val;
    OneSlotField(e, poss, SetVal(0, CHAR, []), e', SetKind(0, CHAR, []));
  }

  lemma OneSlotKind(e: Entry, poss: set<Entry>)
    ensures var s, e' := OneSlot(e, poss, 0, SetKind(0, CHAR, []), false), e.(kind := CHAR);
      Writing(s.pc) && StepFrom(s) == OneSlot(e', poss + {e'}, 0, SetVersion(0, CHAR, []), false)
  {
    hide SetEntry;
    OneSlotField(e, poss, SetKind(0, CHAR, []), e.(kind := CHAR), SetVersion(0, CHAR, []));
  }

  lemma OneSlotVersion(e: Entry, poss: set<Entry>)
    ensures var s, e' := OneSlot(e, poss, 0, SetVersion(0, CHAR, []), false), e.(version := 1);
      Writing(s.pc) && StepFrom(s) == OneSlot(e', poss + {e'}, 0, SyncEntry(0, CHAR, []), false)
  {
    hide SetEntry;
    OneSlotField(e, poss, SetVersion(0, CHAR, []), e.(version := 1), SyncEntry(0, CHAR, []));
  }

  lemma OneSlotSync(e: Entry, poss: set<Entry>)
    ensures var s := OneSlot(e, poss, 0, SyncEntry(0, CHAR, []), false);
      Writing(s.pc) && StepFrom(s) == OneSlot(e, {e}, 1, Session, false)
  {
    hide SetEntry;
    assert [poss][0 := {e}] == [{e}];
  }

  lemma OneEntryBegins(e: Entry)
    requires e == Entry(0, [0, 0, 0, 0, 0, 0, 0, 0], INTEGER, 0)
    ensures var s0, s1 := OneSlot(e, {e}, 0, Idle, false), OneSlot(e, {e}, 0, Session, false);
      && s0 == Init(ONE_BYTE, 1, 1) && Allowed(s0, Start) && s1 == Do(s0, Start)
      && Allowed(s1, LogOnly(0, CHAR)) && OneSlot(e, {e}, 0, SetAddr(0, CHAR, []), false) == Do(s1, LogOnly(0, CHAR))
  {
  }

  lemma OneEntryCrashes(e: Entry)
    requires e.version == 1
    ensures var s7, s8, crash := OneSlot(e, {e}, 1, Session, false), OneSlot(e, {e}, 1, Seek, false), Crash(Image(ONE_BYTE, [e], 1));
      && Allowed(s7, crash) && s8 == Do(s7, crash)
      && Allowed(s8, Step) && OneSlot(e, {e}, 1, Seek, true) == Do(s8, Step)
  {
    SeekIs([e], 1, 1);
  }

  // The session logs one entry, which fills the log; then a crash.  Recovery runs off the log.
  lemma FullLogRun() returns (tr: seq<State>, acts: seq<Act>)
    ensures Run(tr, acts, ONE_BYTE, 1, 1) && |acts| == 9 && acts[0].Start? && EntriesLogged(acts, 0, 7) == 1
    ensures tr[7].pc.Session? && acts[7].Crash? && tr[8].pc.Seek? && !tr[8].fault && tr[9].fault
  {
    hide StepFrom, Crashed, Init, SeekEnd, CrashImage, Inv;
    var e0 := Entry(0, [0, 0, 0, 0, 0, 0, 0, 0], INTEGER, 0);
    var e1 := e0.(val := [7, 0, 0, 0, 0, 0, 0, 0]);
    var e2 := e1.(kind := CHAR);
    var e3 := e2.(version := 1);
    var ss := OneEntry(e0, e1, e2, e3);
    OneEntryBegins(e0);
    OneEntryCrashes(e3);
    tr := [OneSlot(e0, {e0}, 0, Idle, false), OneSlot(e0, {e0}, 0, Session, false)] + ss
          + [OneSlot(e3, {e3}, 1, Seek, false), OneSlot(e3, {e3}, 1, Seek, true)];
    acts := [Start, LogOnly(0, CHAR), Step, Step, Step, Step, Step, Crash(Image(ONE_BYTE, [e3], 1)), Step];
    forall i | 2 <= i < 7 ensures Allowed(tr[i], acts[i]) && tr[i + 1] == Do(tr[i], acts[i]) {
      assert tr[i] == ss[i - 2] && tr[i + 1] == ss[i - 1] && acts[i] == Step;
    }
    OneLogged(acts, 7);
  }

  lemma {:induction false} OneLogged(acts: seq<Act>, j: nat)
    requires 2 <= j <= 7 <= |acts| && acts[0].Start? && acts[1].LogOnly? && forall i :: 2 <= i < 7 ==> acts[i].Step?
    ensures EntriesLogged(acts, 0, j) == 1
  {
    if j == 2 { assert EntriesLogged(acts, 0, 1) == 0; } else { OneLogged(acts, j - 1); }
  }

  // --- where the hypotheses are needed --------------------------------------------------------------------------

  // A store to a range, registered by add_to_flush_table, and the flush at the end of the session
  function StoreAndFlush(s: State, a: nat, bytes: seq<Byte>): State {
    FlushAll(AddToTable(Store(s, a, bytes), a))
  }

  // add_to_flush_table registers only the first line of a range: the flush makes a store durable exactly
  // if it changes nothing in other lines but those that the table holds already.
  lemma RangeIsFlushedIff(s: State, a: nat, bytes: seq<Byte>)
    requires Inv(s) && s.pc.Session? && InMem(s.mem, a, |bytes|)
    ensures var s' := StoreAndFlush(s, a, bytes);
      (forall b :: b in s.mem ==> b in s'.poss && b in s'.mem && s'.poss[b] == {s'.mem[b]}) <==>
      (forall b :: a <= b < a + |bytes| ==> LineOf(b) == LineOf(a) || Holds(LineOf(b)) in s.table || bytes[b - a] == s.mem[b])
  {
    hide LogInv, SlotInv, PhaseInv, StoreAndFlush, TableInv;
    var s' := StoreAndFlush(s, a, bytes);
    forall b | b in s.mem
      ensures b in s'.poss && b in s'.mem
      ensures s'.poss[b] == {s'.mem[b]} <==>
        (a <= b < a + |bytes| ==> LineOf(b) == LineOf(a) || Holds(LineOf(b)) in s.table || bytes[b - a] == s.mem[b])
    {
      FlushedByte(s, a, bytes, b);
    }
    hide *;
  }

  lemma FlushedByte(s: State, a: nat, bytes: seq<Byte>, b: nat)
    requires Inv(s) && s.pc.Session? && b in s.mem
    ensures var s' := StoreAndFlush(s, a, bytes);
      && b in s'.poss && b in s'.mem
      && (s'.poss[b] == {s'.mem[b]} <==>
            (a <= b < a + |bytes| ==> LineOf(b) == LineOf(a) || Holds(LineOf(b)) in s.table || bytes[b - a] == s.mem[b]))
  {
    hide LogInv, SlotInv, PhaseInv, LineOf, AddToTable, FlushAll;
    var s0 := Store(s, a, bytes);
    Registers(s0, a, b);
    Flushes(AddToTable(s0, a), b);
    StoredByte(s, a, bytes, b);
    hide Store, Inv;
  }

  lemma StoredByte(s: State, a: nat, bytes: seq<Byte>, b: nat)
    requires Persistence(s) && TableInv(s) && s.pc.Session? && b in s.mem
    ensures var s0 := Store(s, a, bytes);
      && s0.table == s.table && b in s0.kept && b in s0.mem
      && (Holds(LineOf(b)) in s.table || s0.kept[b] == {s0.mem[b]} <==>
            Holds(LineOf(b)) in s.table || (a <= b < a + |bytes| ==> bytes[b - a] == s.mem[b]))
  {
    hide LineOf;
    assert s.mem[b] in s.kept[b];
    assert Holds(LineOf(b)) in s.table || s.kept[b] == {s.mem[b]};
  }

  lemma Flushes(s: State, b: nat)
    requires b in s.kept && b in s.mem
    ensures var s' := FlushAll(s);
      && s'.mem == s.mem && b in s'.poss
      && (s'.poss[b] == {s'.mem[b]} <==> Holds(LineOf(b)) in s.table || s.kept[b] == {s.mem[b]})
  {
    hide LineOf;
  }

  // A byte whose line the table holds is flushed now or stays in the table.
  lemma Registers(s: State, a: nat, b: nat)
    requires |s.table| > 0 && b in s.kept && b in s.mem
    ensures var s' := AddToTable(s, a);
      && s'.mem == s.mem && b in s'.kept && s'.kept.Keys == s.kept.Keys
      && (Holds(LineOf(b)) in s'.table || s'.kept[b] == {s.mem[b]} <==>
            LineOf(b) == LineOf(a) || Holds(LineOf(b)) in s.table || s.kept[b] == {s.mem[b]})
  {
    hide LineOf;
    var i, t := Slot(s.table, LineOf(a)), AddToTable(s, a).table;
    assert t[i] == Holds(LineOf(a));
    forall j | 0 <= j < |t| && j != i ensures t[j] == s.table[j] && t[j] in t {}
  }

  const TWO_LINES: Mem := map b: nat | b < 128 :: 0

  // Both lines of a range of 128 zeros are overwritten in a fresh session.  The flush leaves undecided
  // what a crash keeps of byte 64.
  lemma TwoLineRange() returns (s: State, bytes: seq<Byte>)
    ensures s == Do(Init(TWO_LINES, 1, 1), Start) && Inv(s) && s.pc.Session? && |bytes| == 128 && InMem(s.mem, 0, 128)
    ensures var s' := StoreAndFlush(s, 0, bytes);
      64 in s'.mem && 64 in s'.poss && s'.mem[64] == 1 && s'.poss[64] == {0, 1}
  {
    hide AddToTable, Inv;
    InitInv(TWO_LINES, 1, 1);
    assert Allowed(Init(TWO_LINES, 1, 1), Start);
    s := Do(Init(TWO_LINES, 1, 1), Start);
    StepKeepsIff(Init(TWO_LINES, 1, 1), Start);
    bytes := seq(128, _ => 1);
    Undecided(Store(s, 0, bytes));
  }

  lemma Undecided(s: State)
    requires s.table == [Empty] && 64 in s.mem && 64 in s.kept
    ensures var s' := FlushAll(AddToTable(s, 0)); 64 in s'.poss && s'.poss[64] == s.kept[64] && s'.mem == s.mem
  {
    assert AddToTable(s, 0).table == [Holds(0)];
  }

  // Each field of e is one that the slot may hold after a crash.
  ghost predicate FieldMix(poss: set<Entry>, e: Entry) {
    && (exists x :: x in poss && x.addr == e.addr) && (exists x :: x in poss && x.val == e.val)
    && (exists x :: x in poss && x.kind == e.kind) && (exists x :: x in poss && x.version == e.version)
  }

  const ZERO: Union := [0, 0, 0, 0, 0, 0, 0, 0]
  const STALE: Union := [1, 0, 0, 0, 0, 0, 0, 0]
  const GOOD: Union := [9, 0, 0, 0, 0, 0, 0, 0]

  // A session of version 2 has written its first entry, over one of version 1.
  function OverOldEntry(): State {
    var e0, e1, e2 := Entry(0, STALE, CHAR, 1), Entry(0, GOOD, CHAR, 1), Entry(0, GOOD, CHAR, 2);
    var z := Entry(0, ZERO, CHAR, 0);
    State(map[0 := 9], map[0 := {9}], map[0 := {9}], [e2, z], [{e0, e1, e2}, {z}], 2, {2}, [Empty], 0,
          SyncEntry(0, CHAR, []), false, map[0 := 9])
  }

  lemma OverOldEntryInv()
    ensures Inv(OverOldEntry())
  {
    var s := OverOldEntry();
    assert SetUnion(GOOD, Read(s.mem, 0, 1)) == GOOD;
    assert s.log[..0] == [];
    hide SetUnion, Read;
  }

  // If the fields of an entry could persist out of order, recovery could restore a stale value.
  lemma TornEntry() returns (s: State, c: Image)
    ensures Inv(s) && s.pc.SyncEntry? && c.mem == s.mem && c.version == s.version && |c.log| == |s.log|
    ensures forall i :: 0 <= i < |s.log| ==> if i == s.cur then FieldMix(s.logPoss[i], c.log[i]) else c.log[i] == s.log[i]
    ensures Replay(c.mem, c.log[..SeekEnd(c.log, c.version)]) != s.start
  {
    s := OverOldEntry();
    OverOldEntryInv();
    hide Inv;
    var torn := Entry(0, STALE, CHAR, 2);
    c := Image(s.mem, [torn, s.log[1]], 2);
    SeekIs(c.log, 2, 1);
    assert c.log[..1] == [torn] && [torn][..0] == [];
    assert Replay(s.mem, [torn]) == Restore(s.mem, torn) && Restore(s.mem, torn)[0] == 1;
    assert Entry(0, STALE, CHAR, 1) in s.logPoss[0] && Entry(0, GOOD, CHAR, 2) in s.logPoss[0];
  }

  // ---------------------------------------------------------------------------------------
  // The log as the program manipulates it between two crashes
  // ---------------------------------------------------------------------------------------

  class PersistentLog {
    var mem: Mem
    const entries: array<Entry>
    var version: nat
    var cur: nat

    constructor (mem: Mem, entries: array<Entry>, version: nat)
      ensures this.mem == mem && this.entries == entries && this.version == version
    {
      this.mem, this.entries, this.version, cur := mem, entries, version, 0;
    }

    // The session's entries bring memory back to `start`.
    ghost predicate Undoes(start: Mem)
      reads this, entries
    {
      && cur <= entries.Length && mem.Keys == start.Keys
      && (forall i :: 0 <= i < cur ==> entries[i].version == version)
      && (forall i :: cur <= i < entries.Length ==> entries[i].version < version)
      && (forall b :: b in mem ==> Earliest(entries[..cur], b, mem[b]) == start[b])
    }

    method StartNvmAtomic()
      requires forall i :: 0 <= i < entries.Length ==> entries[i].version < version
      modifies this`cur
      ensures cur == 0 && Undoes(mem)
    {
      cur := 0;
      assert entries[..0] == [];
    }

    method CreateLogEntry(a: nat, k: Kind)
      requires cur < entries.Length && InMem(mem, a, Width(k))
      modifies this`cur, entries
      ensures cur == old(cur) + 1
      ensures entries[..] == old(entries[..])[old(cur) := entries[old(cur)]]
      ensures var e := entries[old(cur)];
        e.addr == a && e.kind == k && e.version == version && forall b: nat :: Covers(e, b) ==> e.val[b - a] == mem[b]
    {
      var e := entries[cur];
      e := e.(addr := a);
      e := e.(val := SetUnion(e.val, Read(mem, a, Width(k))));
      e := e.(kind := k);
      e := e.(version := version);
      entries[cur] := e;
      cur := cur + 1;
    }

    method StoreNvm(a: nat, k: Kind, bytes: seq<Byte>, ghost start: Mem)
      requires cur < entries.Length && InMem(mem, a, Width(k)) && |bytes| == Width(k) && Undoes(start)
      modifies this`cur, this`mem, entries
      ensures Undoes(start) && cur == old(cur) + 1 && mem == Written(old(mem), a, bytes)
    {
      ghost var es, m := entries[..cur], mem;
      CreateLogEntry(a, k);
      ghost var e := entries[cur - 1];
      assert entries[..cur] == es + [e];
      mem := Written(mem, a, bytes);
      forall b | b in mem ensures Earliest(entries[..cur], b, mem[b]) == start[b] {
        EarliestOfMore(es, e, b, mem[b]);
        EarliestOfMore(es, e, b, m[b]);
      }
    }

    method EndNvmAtomic()
      requires forall i :: 0 <= i < entries.Length ==> entries[i].version <= version
      modifies this`version
      ensures version == old(version) + 1 && forall i :: 0 <= i < entries.Length ==> entries[i].version < version
    {
      version := version + 1;
    }

    // MAK_recover_metadata
    method RecoverMetadata()
      requires SeekEnd(entries[..], version) < entries.Length
      modifies this`mem, this`version
      ensures mem == Replay(old(mem), entries[..SeekEnd(entries[..], old(version))]) && version == old(version) + 1
    {
      ghost var n, m := SeekEnd(entries[..], version), mem;
      var e: int := 0;
      while entries[e].version == version
        invariant 0 <= e <= n
        decreases n - e
      {
        e := e + 1;
      }
      e := e - 1;
      while e >= 0
        invariant -1 <= e < n && version == old(version)
        invariant Replay(mem, entries[..e + 1]) == Replay(m, entries[..n])
      {
        assert entries[..e + 1][..e] == entries[..e];
        mem := Restore(mem, entries[e]);
        e := e - 1;
      }
      version := version + 1;
    }

    // What RecoverMetadata computes is the memory the session started from.
    lemma RollsBack(start: Mem)
      requires Undoes(start)
      ensures SeekEnd(entries[..], version) == cur && Replay(mem, entries[..cur]) == start
    {
      SeekIs(entries[..], version, cur);
      forall b | b in mem ensures b in Replay(mem, entries[..cur]) && Replay(mem, entries[..cur])[b] == start[b] {
        ReplayIsEarliest(mem, entries[..cur], b);
      }
      ReplayKeys(mem, entries[..cur]);
    }
  }
}
