/**
 The sweep phase of recovery: a pass over the superblocks and, in step with it, over the sorted set
 of marked addresses, that rebuilds every anchor, threads the free blocks of each superblock in use
 into a chain and fills the partial lists.  Superblocks of size classes 1 .. NLIST-1.

 Addresses are offsets from the start of the superblock region.  Superblock 0 is not swept, so
 offset 0 stands for the null pointer.
 */
module SweepPhase {

  import opened Arithmetic
  import opened Common

  const NULL: nat := 0

  datatype SbState = ERROR | FULL | PARTIAL | EMPTY
  datatype Anchor = Anchor(avail: nat, count: nat, state: SbState)

  // inUse: heap is set and superblock is the descriptor's own
  datatype Desc = Desc(inUse: bool, sc: nat, blockSize: nat, maxcount: nat, anchor: Anchor)

  const FRESH := Desc(false, 0, 0, 0, Anchor(0, 0, ERROR))

  function SbOf(a: nat): nat {
    a / SBSIZE
  }

  function SbBase(sb: nat): nat {
    sb * SBSIZE
  }

  // The end of the last block of a superblock.
  function BlocksEnd(d: Desc, sb: nat): nat {
    SbBase(sb) + d.maxcount * d.blockSize
  }

  // ---------------------------------------------------------------------------------------
  // What the pass computes
  // ---------------------------------------------------------------------------------------

  // from, from + size, ... below limit
  function Steps(from: nat, limit: nat, size: nat): (r: seq<nat>)
    requires size > 0
    ensures forall i :: 0 <= i < |r| ==> from <= r[i] < limit
    decreases limit - from
  {
    if from >= limit then [] else [from] + Steps(from + size, limit, size)
  }

  function More(done: seq<nat>, from: nat, limit: nat, size: nat): seq<nat>
    requires size > 0
  {
    done + Steps(from, limit, size)
  }

  // The addresses put on the free chain, in the order they are put there: up to the first mark,
  // then from one block behind it, and so on to the end of the last block.
  function Freed(from: nat, ms: seq<nat>, size: nat, end: nat): seq<nat>
    requires size > 0
    decreases |ms|
  {
    if ms == [] then Steps(from, end, size)
    else Steps(from, ms[0], size) + Freed(ms[0] + size, ms[1..], size, end)
  }

  // The run of marks of superblock sb that starts at position `at`.
  function RunEnd(marks: seq<nat>, at: nat, sb: nat): (e: nat)
    ensures at <= e && (at <= |marks| ==> e <= |marks|)
    ensures forall i :: at <= i < e ==> i < |marks| && SbOf(marks[i]) == sb
    ensures e < |marks| ==> SbOf(marks[e]) != sb
    decreases |marks| - at
  {
    if at < |marks| && SbOf(marks[at]) == sb then RunEnd(marks, at + 1, sb) else at
  }

  // The position in the marks when the pass comes to superblock sb.
  function Pos(marks: seq<nat>, sb: nat): (p: nat)
    ensures p <= |marks|
    decreases sb
  {
    if sb <= 1 then 0 else RunEnd(marks, Pos(marks, sb - 1), sb - 1)
  }

  function Seen(marks: seq<nat>, sb: nat): seq<nat> {
    marks[Pos(marks, sb)..RunEnd(marks, Pos(marks, sb), sb)]
  }

  predicate Rebuilt(d: Desc, ms: seq<nat>) {
    d.inUse && ms != []
  }

  function FreedOf(d: Desc, sb: nat, ms: seq<nat>): seq<nat>
    requires d.blockSize > 0
  {
    Freed(SbBase(sb), ms, d.blockSize, BlocksEnd(d, sb))
  }

  function IndexIn(sb: nat, a: nat, size: nat): nat
    requires size > 0
  {
    if a < SbBase(sb) then 0 else (a - SbBase(sb)) / size
  }

  function Last(q: seq<nat>): nat {
    if q == [] then NULL else q[|q| - 1]
  }

  function NewAnchor(d: Desc, sb: nat, freed: seq<nat>): Anchor
    requires d.blockSize > 0
  {
    if freed == [] then Anchor(d.maxcount, 0, FULL)
    else Anchor(IndexIn(sb, Last(freed), d.blockSize), |freed|, PARTIAL)
  }

  // A superblock in use has a class of its own and its blocks fit.
  predicate SmallSb(d: Desc) {
    d.inUse ==> 0 < d.sc < NLIST && d.blockSize > 0 && d.maxcount * d.blockSize <= SBSIZE
  }

  predicate AllSmall(descs: seq<Desc>) {
    forall sb :: 0 <= sb < |descs| ==> SmallSb(descs[sb])
  }

  function SweptDesc(d: Desc, sb: nat, ms: seq<nat>): Desc
    requires SmallSb(d)
  {
    if Rebuilt(d, ms) then d.(anchor := NewAnchor(d, sb, FreedOf(d, sb, ms))) else FRESH
  }

  predicate Listed(d: Desc, sb: nat, ms: seq<nat>)
    requires SmallSb(d)
  {
    Rebuilt(d, ms) && FreedOf(d, sb, ms) != []
  }

  // The partial list of a class once the superblocks below n are swept, top first.
  function PartialOf(descs: seq<Desc>, marks: seq<nat>, n: nat, sc: nat): seq<nat>
    requires n <= |descs| && AllSmall(descs)
  {
    if n <= 1 then []
    else (if OnList(descs, marks, n - 1, sc) then [n - 1] else []) + PartialOf(descs, marks, n - 1, sc)
  }

  predicate OnList(descs: seq<Desc>, marks: seq<nat>, sb: nat, sc: nat)
    requires sb < |descs| && AllSmall(descs)
  {
    assert SmallSb(descs[sb]);
    Listed(descs[sb], sb, Seen(marks, sb)) && descs[sb].sc == sc
  }

  // The links, followed from head, spell `done` backwards and end in null.
  predicate Chain(links: map<nat, nat>, head: nat, done: seq<nat>) {
    && head == Last(done)
    && (forall i {:trigger done[i]} :: 0 <= i < |done| ==> done[i] in links && links[done[i]] == if i == 0 then NULL else done[i - 1])
  }

  lemma ChainFrame(links: map<nat, nat>, links': map<nat, nat>, head: nat, done: seq<nat>)
    requires Chain(links, head, done)
    requires forall a :: a in done ==> a in links' && (a in links ==> links'[a] == links[a])
    ensures Chain(links', head, done)
  {
  }

  lemma {:induction false} FreedBounds(from: nat, ms: seq<nat>, size: nat, end: nat, bound: nat)
    requires size > 0 && end <= bound && (forall i :: 0 <= i < |ms| ==> ms[i] < bound) && Ascending(ms)
    ensures forall i :: 0 <= i < |Freed(from, ms, size, end)| ==>
              (from <= Freed(from, ms, size, end)[i] || (ms != [] && ms[0] < Freed(from, ms, size, end)[i])) && Freed(from, ms, size, end)[i] < bound
    decreases |ms|
  {
    if ms != [] { FreedBounds(ms[0] + size, ms[1..], size, end, bound); }
  }

  // ---------------------------------------------------------------------------------------
  // The pass
  // ---------------------------------------------------------------------------------------

  class Sweeper {
    const marks: seq<nat>
    var descs: seq<Desc>
    var links: map<nat, nat>
    var partial: seq<seq<nat>>

    constructor (marks: seq<nat>, descs: seq<Desc>, links: map<nat, nat>)
      ensures this.marks == marks && this.descs == descs && this.links == links
      ensures partial == seq(NLIST, _ => [])
    {
      this.marks, this.descs, this.links, partial := marks, descs, links, seq(NLIST, _ => []);
    }

    // The loops at lines 926-932 and 964-970
    method ThreadFree(from: nat, limit: nat, size: nat, head: nat, count: nat, ghost done: seq<nat>)
      returns (head': nat, count': nat)
      requires size > 0 && Chain(links, head, done) && count == |done|
      requires Below(done, from)
      modifies this`links
      ensures Chain(links, head', More(done, from, limit, size)) && count' == |More(done, from, limit, size)|
      ensures SameBut(old(links), links, Steps(from, limit, size))
    {
      hide Chain, Below, SameBut, Ahead, Steps;
      ghost var freed: seq<nat> := done;
      var freeBlock := from;
      head', count' := head, count;
      AheadStart(done, from, limit, size);
      SameButSelf(links, Steps(from, limit, size));
      while freeBlock < limit
        invariant Ahead(done, Steps(from, limit, size), freed, freeBlock, limit, size)
        invariant Chain(links, head', freed) && count' == |freed| && Below(freed, freeBlock)
        invariant SameBut(old(links), links, Steps(from, limit, size))
        decreases limit - freeBlock
      {
        AheadNext(done, Steps(from, limit, size), freed, freeBlock, limit, size);
        Longer(links, head', freed, freeBlock, size);
        SameButMore(old(links), links, Steps(from, limit, size), freeBlock, head');
        links := links[freeBlock := head'];
        head' := freeBlock;
        count' := count' + 1;
        freed := freed + [freeBlock];
        freeBlock := freeBlock + size;
      }
      AheadEnd(done, Steps(from, limit, size), freed, freeBlock, limit, size);
    }

    // Lines 926-934, for one mark
    method ThreadMark(sb: nat, ghost at: nat, mark: nat, ghost next: nat, size: nat, last: nat, head: nat, count: nat, ghost w: Work)
      returns (last': nat, head': nat, count': nat, ghost w': Work)
      requires size > 0 && next < |marks| && mark == marks[next] && SbOf(mark) == sb && WorkInv(w, marks, links, at, next, sb, size, last, head, count)
      modifies this`links
      ensures WorkInv(w', marks, links, at, next + 1, sb, size, last', head', count') && w'.all == w.all && w'.links0 == w.links0 && w'.end == w.end
    {
      hide *;
      w' := w.(done := More(w.done, last, mark, size));
      ghost var links1 := links;
      WorkReady(w, marks, links, at, next, sb, size, last, head, count);
      head', count' := ThreadFree(last, mark, size, head, count, w.done);
      WorkNext(w, marks, links1, links, at, next, sb, size, last, head, count, head', count');
      last' := mark + size;
    }

    // The loop at lines 908-938 for a superblock in use
    method MarkLoop(sb: nat, at: nat, size: nat, ghost w0: Work) returns (next: nat, last: nat, head: nat, count: nat, ghost w: Work)
      requires size > 0 && WorkInv(w0, marks, links, at, at, sb, size, SbBase(sb), NULL, 0)
      modifies this`links
      ensures WorkInv(w, marks, links, at, next, sb, size, last, head, count) && (next >= |marks| || SbOf(marks[next]) != sb)
      ensures w.all == w0.all && w.links0 == w0.links0 && w.end == w0.end
    {
      hide *;
      last, next, head, count, w := SbBase(sb), at, NULL, 0, w0;
      while next < |marks| && SbOf(marks[next]) == sb
        invariant WorkInv(w, marks, links, at, next, sb, size, last, head, count)
        invariant w.all == w0.all && w.links0 == w0.links0 && w.end == w0.end
        decreases |marks| - next
      {
        last, head, count, w := ThreadMark(sb, at, marks[next], next, size, last, head, count, w);
        next := next + 1;
      }
    }

    // ... and the loop at 964-970
    method ThreadMarks(sb: nat, at: nat, size: nat, end: nat) returns (next: nat, head: nat, count: nat)
      requires size > 0 && at <= |marks| && Ascending(marks)
      modifies this`links
      ensures next == RunEnd(marks, at, sb)
      ensures var freed := Freed(SbBase(sb), marks[at..next], size, end);
        Chain(links, head, freed) && count == |freed| && SameBut(old(links), links, freed)
    {
      hide *;
      var last: nat;
      ghost var w := Work(Freed(SbBase(sb), marks[at..RunEnd(marks, at, sb)], size, end), [], end, links);
      StartMarks(sb, marks, at, size, end, links);
      next, last, head, count, w := MarkLoop(sb, at, size, w);
      EndMarks(w, marks, links, at, next, sb, size, last, head, count);
      ghost var links1 := links;
      head, count := ThreadFree(last, end, size, head, count, w.done);
      SameButTrans(old(links), links1, links, Steps(last, end, size), w.all);
    }

    // Marks of a superblock that is not in use are passed over.
    method PassMarks(sb: nat, at: nat) returns (next: nat)
      requires at <= |marks|
      ensures next == RunEnd(marks, at, sb)
    {
      next := at;
      while next < |marks| && SbOf(marks[next]) == sb
        invariant next <= |marks| && RunEnd(marks, next, sb) == RunEnd(marks, at, sb)
      {
        next := next + 1;
      }
    }

    // Lines 908-996 for a superblock in use with a mark
    method Rebuild(sb: nat, at: nat) returns (next: nat)
      requires at < |marks| && Ascending(marks) && sb < |descs| && SmallSb(descs[sb]) && |partial| == NLIST
      requires descs[sb].inUse && SbOf(marks[at]) == sb
      modifies this
      ensures next == RunEnd(marks, at, sb) <= |marks|
      ensures SweptOne(old(descs), old(links), old(partial), descs, links, partial, sb, marks[at..next])
    {
      hide *;
      var d, head, count := descs[sb], NULL, 0;
      ghost var descs0, links0, partial0 := descs, links, partial;
      HasRun(marks, at, sb, d);
      next, head, count := ThreadMarks(sb, at, d.blockSize, BlocksEnd(d, sb));
      OneRebuilt(descs0, links0, partial0, links, sb, marks[at..next], head, count);
      if count == 0 {
        descs := descs[sb := d.(anchor := Anchor(d.maxcount, 0, FULL))];
      } else {
        partial := partial[d.sc := [sb] + partial[d.sc]];
        descs := descs[sb := d.(anchor := Anchor(IndexIn(sb, head, d.blockSize), count, PARTIAL))];
      }
    }

    // One round of the outer loop, lines 903-997
    method SweepOne(sb: nat, at: nat) returns (next: nat)
      requires at <= |marks| && Ascending(marks) && sb < |descs| && SmallSb(descs[sb]) && |partial| == NLIST
      modifies this
      ensures next == RunEnd(marks, at, sb) <= |marks|
      ensures SweptOne(old(descs), old(links), old(partial), descs, links, partial, sb, marks[at..next])
    {
      hide RunEnd, Ascending, SbOf, FreedOf, Chain, SameBut;
      RunIsEmptyIff(marks, at, sb);
      if descs[sb].inUse && at < |marks| && SbOf(marks[at]) == sb {
        next := Rebuild(sb, at);
      } else {
        next := PassMarks(sb, at);
        descs := descs[sb := FRESH];
      }
    }

    // Lines 896-997.  What every superblock becomes, and what is on the partial lists.
    method Sweep()
      requires Ascending(marks) && |partial| == NLIST && forall sc :: 0 <= sc < NLIST ==> partial[sc] == []
      requires |descs| > 0 && AllSmall(descs)
      modifies this
      ensures Swept(marks, old(descs), old(links), old(partial), descs, links, partial, |old(descs)|)
    {
      hide Swept, SweptOne, Pos, RunEnd, Ascending, AllSmall, SmallSb;
      var sb, at := 1, 0;
      ghost var descs0, links0, partial0 := descs, links, partial;
      StartSweep(marks, descs, links, partial);
      while sb < |descs|
        invariant 1 <= sb <= |descs| == |descs0| && at == Pos(marks, sb) <= |marks|
        invariant Swept(marks, descs0, links0, partial0, descs, links, partial, sb)
      {
        ghost var descs1, links1, partial1 := descs, links, partial;
        SweepReady(marks, descs0, links0, partial0, descs, links, partial, sb);
        at := SweepOne(sb, at);
        SweepNext(marks, descs0, links0, partial0, descs1, links1, partial1, descs, links, partial, sb);
        sb := sb + 1;
      }
    }
  }

  lemma OneRebuilt(descs: seq<Desc>, links: map<nat, nat>, partial: seq<seq<nat>>, links': map<nat, nat>,
                   sb: nat, ms: seq<nat>, head: nat, count: nat)
    requires sb < |descs| && SmallSb(descs[sb]) && |partial| == NLIST && Rebuilt(descs[sb], ms) && descs[sb].blockSize > 0
    requires var d := descs[sb]; var freed := Freed(SbBase(sb), ms, d.blockSize, BlocksEnd(d, sb));
      Chain(links', head, freed) && count == |freed| && SameBut(links, links', freed)
    ensures descs[sb].sc < |partial|
    ensures var d := descs[sb];
      if count == 0 then SweptOne(descs, links, partial, descs[sb := d.(anchor := Anchor(d.maxcount, 0, FULL))], links', partial, sb, ms)
      else SweptOne(descs, links, partial, descs[sb := d.(anchor := Anchor(IndexIn(sb, head, d.blockSize), count, PARTIAL))],
                    links', partial[d.sc := [sb] + partial[d.sc]], sb, ms)
  {
  }

  lemma HasRun(marks: seq<nat>, at: nat, sb: nat, d: Desc)
    requires at < |marks| && SbOf(marks[at]) == sb && SmallSb(d) && d.inUse
    ensures Rebuilt(d, marks[at..RunEnd(marks, at, sb)]) && d.blockSize > 0
  {
  }

  lemma RunIsEmptyIff(marks: seq<nat>, at: nat, sb: nat)
    requires at <= |marks|
    ensures RunEnd(marks, at, sb) > at <==> at < |marks| && SbOf(marks[at]) == sb
  {
  }

  // One superblock is swept.
  ghost predicate SweptOne(descs: seq<Desc>, links: map<nat, nat>, partial: seq<seq<nat>>,
                           descs': seq<Desc>, links': map<nat, nat>, partial': seq<seq<nat>>, sb: nat, ms: seq<nat>)
    requires sb < |descs| && SmallSb(descs[sb]) && |partial| == NLIST
  {
    var d := descs[sb];
    && descs' == descs[sb := SweptDesc(d, sb, ms)]
    && |partial'| == |partial| && partial' == (if Listed(d, sb, ms) then partial[d.sc := [sb] + partial[d.sc]] else partial)
    && if Rebuilt(d, ms) then
         Chain(links', Last(FreedOf(d, sb, ms)), FreedOf(d, sb, ms)) && SameBut(links, links', FreedOf(d, sb, ms))
       else links' == links
  }

  // Superblocks below n are swept, the others are as they were; only links of freed blocks have changed.
  ghost predicate Swept(marks: seq<nat>, descs: seq<Desc>, links: map<nat, nat>, partial: seq<seq<nat>>,
                        descs': seq<Desc>, links': map<nat, nat>, partial': seq<seq<nat>>, n: nat)
    requires AllSmall(descs)
  {
    && |descs'| == |descs| && 1 <= n <= |descs| && |partial'| == NLIST
    && (forall sb {:trigger Seen(marks, sb)} :: 1 <= sb < n ==>
          descs'[sb] == SweptDesc(descs[sb], sb, Seen(marks, sb)) && ChainOf(descs[sb], links', sb, Seen(marks, sb)))
    && (forall sb {:trigger descs'[sb]} :: n <= sb < |descs| ==> descs'[sb] == descs[sb])
    && (forall a {:trigger IsFreed(marks, descs, a)} :: a in links && !IsFreed(marks, descs, a) ==> a in links' && links'[a] == links[a])
    && (forall sc {:trigger partial'[sc]} :: 0 <= sc < NLIST ==> partial'[sc] == PartialOf(descs, marks, n, sc))
  }

  predicate ChainOf(d: Desc, links: map<nat, nat>, sb: nat, ms: seq<nat>)
    requires SmallSb(d)
  {
    Rebuilt(d, ms) ==> Chain(links, Last(FreedOf(d, sb, ms)), FreedOf(d, sb, ms))
  }

  predicate IsFreed(marks: seq<nat>, descs: seq<Desc>, a: nat)
    requires AllSmall(descs)
  {
    var sb := SbOf(a);
    0 < sb < |descs| && Rebuilt(descs[sb], Seen(marks, sb)) && SmallSb(descs[sb]) && a in FreedOf(descs[sb], sb, Seen(marks, sb))
  }

  // Marks up to `next` are handled: done, then what is freed from `last` on, is all that is freed.
  predicate Threading(all: seq<nat>, done: seq<nat>, last: nat, marks: seq<nat>, at: nat, next: nat, sb: nat, size: nat, end: nat)
    requires size > 0
  {
    && at <= next <= RunEnd(marks, at, sb) <= |marks| && Ascending(marks)
    && done + Freed(last, marks[next..RunEnd(marks, at, sb)], size, end) == all && Below(done, last)
    && if next == at then last == SbBase(sb) else last == marks[next - 1] + size
  }

  predicate AllIn(q: seq<nat>, all: seq<nat>) {
    forall a :: a in q ==> a in all
  }

  // What is to be freed and what is so far, the end of the last block and the links at the start.
  datatype Work = Work(all: seq<nat>, done: seq<nat>, end: nat, links0: map<nat, nat>)

  ghost predicate WorkInv(w: Work, marks: seq<nat>, links: map<nat, nat>, at: nat, next: nat, sb: nat, size: nat, last: nat, head: nat, count: nat)
    requires size > 0
  {
    && Threading(w.all, w.done, last, marks, at, next, sb, size, w.end)
    && Chain(links, head, w.done) && count == |w.done| && SameBut(w.links0, links, w.all)
  }

  lemma StartMarks(sb: nat, marks: seq<nat>, at: nat, size: nat, end: nat, links: map<nat, nat>)
    requires size > 0 && at <= |marks| && Ascending(marks)
    ensures WorkInv(Work(Freed(SbBase(sb), marks[at..RunEnd(marks, at, sb)], size, end), [], end, links),
                    marks, links, at, at, sb, size, SbBase(sb), NULL, 0)
  {
  }

  lemma WorkReady(w: Work, marks: seq<nat>, links: map<nat, nat>, at: nat, next: nat, sb: nat, size: nat, last: nat, head: nat, count: nat)
    requires size > 0 && WorkInv(w, marks, links, at, next, sb, size, last, head, count)
    ensures Below(w.done, last) && Chain(links, head, w.done) && count == |w.done|
  {
  }

  lemma WorkNext(w: Work, marks: seq<nat>, links: map<nat, nat>, links': map<nat, nat>, at: nat, next: nat, sb: nat, size: nat,
                 last: nat, head: nat, count: nat, head': nat, count': nat)
    requires size > 0 && WorkInv(w, marks, links, at, next, sb, size, last, head, count) && next < |marks| && SbOf(marks[next]) == sb
    requires var done := More(w.done, last, marks[next], size); Chain(links', head', done) && count' == |done|
    requires SameBut(links, links', Steps(last, marks[next], size))
    ensures WorkInv(w.(done := More(w.done, last, marks[next], size)), marks, links', at, next + 1, sb, size, marks[next] + size, head', count')
  {
    hide Threading, Chain, SameBut, More, AllIn, Below, Steps, SbOf, RunEnd;
    NextMark(w.all, w.done, last, marks, at, next, sb, size, w.end);
    SameButTrans(w.links0, links, links', Steps(last, marks[next], size), w.all);
  }

  lemma EndMarks(w: Work, marks: seq<nat>, links: map<nat, nat>, at: nat, next: nat, sb: nat, size: nat, last: nat, head: nat, count: nat)
    requires size > 0 && WorkInv(w, marks, links, at, next, sb, size, last, head, count)
    requires next >= |marks| || SbOf(marks[next]) != sb
    ensures next == RunEnd(marks, at, sb) && Below(w.done, last) && Chain(links, head, w.done) && count == |w.done|
    ensures More(w.done, last, w.end, size) == w.all && AllIn(Steps(last, w.end, size), w.all) && SameBut(w.links0, links, w.all)
  {
  }

  lemma Associate(done: seq<nat>, more: seq<nat>, rest: seq<nat>)
    ensures (done + more) + rest == done + (more + rest)
    ensures AllIn(more, (done + more) + rest)
  {
  }

  lemma NextMark(all: seq<nat>, done: seq<nat>, last: nat, marks: seq<nat>, at: nat, next: nat, sb: nat, size: nat, end: nat)
    requires size > 0 && next < |marks| && SbOf(marks[next]) == sb && Threading(all, done, last, marks, at, next, sb, size, end)
    ensures next + 1 <= RunEnd(marks, at, sb) && Below(done, last)
    ensures Threading(all, More(done, last, marks[next], size), marks[next] + size, marks, at, next + 1, sb, size, end)
    ensures AllIn(Steps(last, marks[next], size), all)
  {
    var m, e := marks[next], RunEnd(marks, at, sb);
    assert next < e;
    var more, rest := Steps(last, m, size), Freed(m + size, marks[next + 1..e], size, end);
    assert marks[next..e][0] == m && marks[next..e][1..] == marks[next + 1..e];
    Associate(done, more, rest);
    assert last <= m + size;
    hide Freed, Steps, RunEnd, AllIn;
  }

  lemma SameButTrans(l0: map<nat, nat>, l1: map<nat, nat>, l2: map<nat, nat>, q: seq<nat>, all: seq<nat>)
    requires SameBut(l0, l1, all) && SameBut(l1, l2, q) && AllIn(q, all)
    ensures SameBut(l0, l2, all)
  {
  }

  // freed followed by the steps still to come is done followed by all steps.
  predicate Ahead(done: seq<nat>, all: seq<nat>, freed: seq<nat>, from: nat, limit: nat, size: nat)
    requires size > 0
  {
    |done| <= |freed| && freed + Steps(from, limit, size) == done + all
  }

  lemma AheadStart(done: seq<nat>, from: nat, limit: nat, size: nat)
    requires size > 0
    ensures Ahead(done, Steps(from, limit, size), done, from, limit, size)
  {
  }

  lemma AheadNext(done: seq<nat>, all: seq<nat>, freed: seq<nat>, from: nat, limit: nat, size: nat)
    requires size > 0 && from < limit && Ahead(done, all, freed, from, limit, size)
    ensures Ahead(done, all, freed + [from], from + size, limit, size) && from in all
  {
    var rest := Steps(from + size, limit, size);
    assert (freed + [from]) + rest == freed + Steps(from, limit, size);
    assert (done + all)[|freed|] == (freed + Steps(from, limit, size))[|freed|] == from;
    assert all[|freed| - |done|] == from;
  }

  lemma AheadEnd(done: seq<nat>, all: seq<nat>, freed: seq<nat>, from: nat, limit: nat, size: nat)
    requires size > 0 && from >= limit && Ahead(done, all, freed, from, limit, size)
    ensures freed == done + all
  {
  }

  predicate Below(q: seq<nat>, a: nat) {
    forall i :: 0 <= i < |q| ==> q[i] < a
  }

  // No link changed but those of the given blocks.
  ghost predicate SameBut(links: map<nat, nat>, links': map<nat, nat>, q: seq<nat>) {
    && (forall a {:trigger a in links'} :: a !in q ==> (a in links' <==> a in links))
    && (forall a {:trigger links'[a]} :: a !in q && a in links' && a in links ==> links'[a] == links[a])
  }

  lemma SameButSelf(links: map<nat, nat>, q: seq<nat>)
    ensures SameBut(links, links, q)
  {
  }

  lemma SameButMore(links0: map<nat, nat>, links: map<nat, nat>, q: seq<nat>, a: nat, v: nat)
    requires SameBut(links0, links, q) && a in q
    ensures SameBut(links0, links[a := v], q)
  {
  }

  lemma Longer(links: map<nat, nat>, head: nat, done: seq<nat>, a: nat, size: nat)
    requires Chain(links, head, done) && Below(done, a) && size > 0
    ensures Chain(links[a := head], a, done + [a]) && Below(done + [a], a + size)
  {
  }

  lemma StartSweep(marks: seq<nat>, descs: seq<Desc>, links: map<nat, nat>, partial: seq<seq<nat>>)
    requires AllSmall(descs) && |descs| > 0 && |partial| == NLIST && forall sc :: 0 <= sc < NLIST ==> partial[sc] == []
    ensures Swept(marks, descs, links, partial, descs, links, partial, 1) && Pos(marks, 1) == 0
  {
  }

  lemma SweepReady(marks: seq<nat>, descs: seq<Desc>, links: map<nat, nat>, partial: seq<seq<nat>>,
                   descs': seq<Desc>, links': map<nat, nat>, partial': seq<seq<nat>>, sb: nat)
    requires AllSmall(descs) && sb < |descs'| && Swept(marks, descs, links, partial, descs', links', partial', sb)
    ensures descs'[sb] == descs[sb] && SmallSb(descs'[sb]) && |partial'| == NLIST
  {
  }

  // The blocks freed for a superblock lie in it.
  lemma FreedInSb(d: Desc, sb: nat, marks: seq<nat>, a: nat)
    requires SmallSb(d) && d.inUse && Ascending(marks) && a in FreedOf(d, sb, Seen(marks, sb))
    ensures SbOf(a) == sb
  {
    var ms, base := Seen(marks, sb), SbBase(sb);
    SeenInSb(marks, sb);
    FreedBounds(base, ms, d.blockSize, BlocksEnd(d, sb), base + SBSIZE);
    var i :| 0 <= i < |FreedOf(d, sb, ms)| && FreedOf(d, sb, ms)[i] == a;
    hide Seen, Freed;
    assert base <= a < base + SBSIZE;
  }

  lemma SeenInSb(marks: seq<nat>, sb: nat)
    requires Ascending(marks)
    ensures Ascending(Seen(marks, sb)) && forall i :: 0 <= i < |Seen(marks, sb)| ==> SbBase(sb) <= Seen(marks, sb)[i] < SbBase(sb) + SBSIZE
  {
  }

  lemma OtherChain(d: Desc, links: map<nat, nat>, links': map<nat, nat>, marks: seq<nat>, sb: nat, q: seq<nat>)
    requires SmallSb(d) && Ascending(marks) && ChainOf(d, links, sb, Seen(marks, sb)) && SameBut(links, links', q)
    requires forall a :: a in q ==> SbOf(a) != sb
    ensures ChainOf(d, links', sb, Seen(marks, sb))
  {
    if Rebuilt(d, Seen(marks, sb)) {
      var freed := FreedOf(d, sb, Seen(marks, sb));
      forall a | a in freed ensures a !in q && a in links { FreedInSb(d, sb, marks, a); }
      ChainFrame(links, links', Last(freed), freed);
    }
  }

  lemma ChainsStay(marks: seq<nat>, descs: seq<Desc>, links1: map<nat, nat>, links2: map<nat, nat>, sb: nat, u: nat)
    requires AllSmall(descs) && 1 <= sb < |descs| && u < sb && Ascending(marks)
    requires ChainOf(descs[u], links1, u, Seen(marks, u)) && SmallSb(descs[sb]) && SmallSb(descs[u])
    requires if Rebuilt(descs[sb], Seen(marks, sb)) then SameBut(links1, links2, FreedOf(descs[sb], sb, Seen(marks, sb))) else links2 == links1
    ensures ChainOf(descs[u], links2, u, Seen(marks, u))
  {
    hide ChainOf, FreedOf, Seen, SameBut;
    var d := descs[sb];
    if Rebuilt(d, Seen(marks, sb)) {
      var q := FreedOf(d, sb, Seen(marks, sb));
      forall a | a in q ensures SbOf(a) != u { FreedInSb(d, sb, marks, a); }
      OtherChain(descs[u], links1, links2, marks, u, q);
    }
  }

  lemma LinksStay(marks: seq<nat>, descs: seq<Desc>, links1: map<nat, nat>, links2: map<nat, nat>, sb: nat, a: nat)
    requires AllSmall(descs) && 1 <= sb < |descs| && Ascending(marks) && SmallSb(descs[sb])
    requires if Rebuilt(descs[sb], Seen(marks, sb)) then SameBut(links1, links2, FreedOf(descs[sb], sb, Seen(marks, sb))) else links2 == links1
    requires !IsFreed(marks, descs, a) && a in links1
    ensures a in links2 && links2[a] == links1[a]
  {
    hide FreedOf, Seen;
    var d := descs[sb];
    if Rebuilt(d, Seen(marks, sb)) && a in FreedOf(d, sb, Seen(marks, sb)) { FreedInSb(d, sb, marks, a); }
  }

  lemma PartialNext(marks: seq<nat>, descs: seq<Desc>, partial1: seq<seq<nat>>, partial2: seq<seq<nat>>, sb: nat, sc: nat)
    requires AllSmall(descs) && 1 <= sb < |descs| && sc < NLIST == |partial1| && SmallSb(descs[sb])
    requires partial1[sc] == PartialOf(descs, marks, sb, sc)
    requires partial2 == (if Listed(descs[sb], sb, Seen(marks, sb)) then partial1[descs[sb].sc := [sb] + partial1[descs[sb].sc]] else partial1)
    ensures partial2[sc] == PartialOf(descs, marks, sb + 1, sc)
  {
  }

  lemma SweepNext(marks: seq<nat>, descs: seq<Desc>, links: map<nat, nat>, partial: seq<seq<nat>>,
                  descs1: seq<Desc>, links1: map<nat, nat>, partial1: seq<seq<nat>>,
                  descs2: seq<Desc>, links2: map<nat, nat>, partial2: seq<seq<nat>>, sb: nat)
    requires AllSmall(descs) && 1 <= sb < |descs| && Ascending(marks)
    requires Swept(marks, descs, links, partial, descs1, links1, partial1, sb)
    requires descs1[sb] == descs[sb] && SweptOne(descs1, links1, partial1, descs2, links2, partial2, sb, Seen(marks, sb))
    ensures Swept(marks, descs, links, partial, descs2, links2, partial2, sb + 1)
    ensures RunEnd(marks, Pos(marks, sb), sb) == Pos(marks, sb + 1) && |descs2| == |descs|
  {
    hide FreedOf, Seen, SweptDesc, Listed, Rebuilt, Chain, SameBut, PartialOf, IsFreed, Ascending, SmallSb;
    assert SmallSb(descs[sb]);
    forall u | 1 <= u < sb + 1
      ensures descs2[u] == SweptDesc(descs[u], u, Seen(marks, u)) && ChainOf(descs[u], links2, u, Seen(marks, u))
    {
      if u < sb {
        assert descs1[u] == SweptDesc(descs[u], u, Seen(marks, u));
        hide ChainOf;
        ChainsStay(marks, descs, links1, links2, sb, u);
      }
    }
    hide ChainOf;
    forall a | a in links && !IsFreed(marks, descs, a) ensures a in links2 && links2[a] == links[a] {
      LinksStay(marks, descs, links1, links2, sb, a);
    }
    forall sc | 0 <= sc < NLIST ensures partial2[sc] == PartialOf(descs, marks, sb + 1, sc) {
      PartialNext(marks, descs, partial1, partial2, sb, sc);
    }
  }

  // ---------------------------------------------------------------------------------------
  // Which marks a superblock sees
  // ---------------------------------------------------------------------------------------

  lemma {:induction false} PosSplits(marks: seq<nat>, sb: nat)
    requires Ascending(marks) && sb >= 1 && forall i :: 0 <= i < |marks| ==> SbOf(marks[i]) >= 1
    ensures forall i :: 0 <= i < Pos(marks, sb) ==> SbOf(marks[i]) < sb
    ensures forall i :: Pos(marks, sb) <= i < |marks| ==> SbOf(marks[i]) >= sb
    decreases sb
  {
    if sb > 1 {
      PosSplits(marks, sb - 1);
      var p, e := Pos(marks, sb - 1), Pos(marks, sb);
      forall i | e <= i < |marks| ensures SbOf(marks[i]) >= sb {
        assert marks[e] <= marks[i] && SbOf(marks[e]) >= sb;
      }
    }
  }

  // Each superblock sees exactly the marks that lie in it, if none lies in superblock 0.
  lemma SeenAreMarks(marks: seq<nat>, sb: nat, a: nat)
    requires Ascending(marks) && sb >= 1 && forall i :: 0 <= i < |marks| ==> SbOf(marks[i]) >= 1
    ensures a in Seen(marks, sb) <==> a in marks && SbOf(a) == sb
  {
    hide RunEnd, Pos, SbOf;
    PosSplits(marks, sb);
    PosSplits(marks, sb + 1);
    NextPos(marks, sb);
    var p, e := Pos(marks, sb), Pos(marks, sb + 1);
    if a in Seen(marks, sb) {
      var i :| 0 <= i < |marks[p..e]| && marks[p..e][i] == a;
      assert marks[p + i] == a;
    }
    if a in marks && SbOf(a) == sb {
      var i :| 0 <= i < |marks| && marks[i] == a;
      assert marks[p..e][i - p] == a;
    }
  }

  lemma NextPos(marks: seq<nat>, sb: nat)
    requires sb >= 1
    ensures Pos(marks, sb) <= RunEnd(marks, Pos(marks, sb), sb) == Pos(marks, sb + 1)
  {
  }

  // A mark in superblock 0 stops the pass over the marks for good: no superblock sees any.
  lemma {:induction false} ZeroMarkStalls(marks: seq<nat>, sb: nat)
    requires marks != [] && SbOf(marks[0]) == 0 && sb >= 1
    ensures Pos(marks, sb) == 0 && Seen(marks, sb) == []
    decreases sb
  {
    if sb > 1 { ZeroMarkStalls(marks, sb - 1); }
    assert RunEnd(marks, 0, sb) == 0;
  }

  // The assertion after the pass, that every mark was consumed.
  lemma AllMarksConsumedIff(marks: seq<nat>, n: nat)
    requires Ascending(marks) && n >= 1 && forall i :: 0 <= i < |marks| ==> SbOf(marks[i]) < n
    ensures Pos(marks, n) == |marks| <==> forall i :: 0 <= i < |marks| ==> SbOf(marks[i]) >= 1
  {
    if marks != [] && SbOf(marks[0]) == 0 {
      ZeroMarkStalls(marks, n);
    } else if marks != [] {
      forall i | 0 <= i < |marks| ensures SbOf(marks[i]) >= 1 { assert marks[0] <= marks[i]; }
      PosSplits(marks, n);
    }
  }

  // ---------------------------------------------------------------------------------------
  // Which blocks are freed
  // ---------------------------------------------------------------------------------------

  function Block(base: nat, size: nat, k: nat): nat {
    base + k * size
  }

  predicate OnBlock(base: nat, size: nat, n: nat, a: nat) {
    exists k :: 0 <= k < n && a == Block(base, size, k)
  }

  lemma BlockOrder(base: nat, size: nat, j: nat, k: nat)
    requires size > 0
    ensures j < k <==> Block(base, size, j) < Block(base, size, k)
    ensures j < k ==> Block(base, size, j) + size <= Block(base, size, k)
    ensures Block(base, size, j + 1) == Block(base, size, j) + size
  {
    if j < k { Scaled(j + 1, k, size); } else { Scaled(k, j, size); }
  }

  lemma {:induction false} StepsAreBlocks(base: nat, size: nat, j: nat, n: nat, k: nat)
    requires size > 0 && j <= n
    ensures Block(base, size, k) in Steps(Block(base, size, j), Block(base, size, n), size) <==> j <= k < n
    ensures |Steps(Block(base, size, j), Block(base, size, n), size)| == n - j
    ensures forall a :: a in Steps(Block(base, size, j), Block(base, size, n), size) ==> OnBlock(base, size, n, a)
    decreases n - j
  {
    BlockOrder(base, size, j, n);
    BlockOrder(base, size, n, j);
    BlockOrder(base, size, j, k);
    BlockOrder(base, size, k, j);
    if j < n {
      StepsAreBlocks(base, size, j + 1, n, k);
      hide Block;
    }
  }

  // With the marks on block boundaries, from block j on: the unmarked blocks are freed, once each.
  ghost predicate FreesUnmarked(base: nat, size: nat, j: nat, n: nat, ms: seq<nat>)
    requires size > 0
  {
    var freed := Freed(Block(base, size, j), ms, size, Block(base, size, n));
    && |freed| == n - j - |ms|
    && (forall k: nat {:trigger Block(base, size, k)} :: Block(base, size, k) in freed <==> j <= k < n && Block(base, size, k) !in ms)
    && (forall a :: a in freed ==> OnBlock(base, size, n, a))
  }

  lemma {:induction false} FreedAreUnmarked(base: nat, size: nat, j: nat, n: nat, ms: seq<nat>)
    requires size > 0 && j <= n && Ascending(ms)
    requires forall i :: 0 <= i < |ms| ==> OnBlock(base, size, n, ms[i]) && Block(base, size, j) <= ms[i]
    ensures FreesUnmarked(base, size, j, n, ms)
    decreases |ms|
  {
    if ms == [] {
      forall k: nat { StepsAreBlocks(base, size, j, n, k); }
    } else {
      var m :| 0 <= m < n && ms[0] == Block(base, size, m);
      BlockOrder(base, size, m, j);
      BlockOrder(base, size, m, m);
      forall i | 0 <= i < |ms[1..]| ensures OnBlock(base, size, n, ms[1..][i]) && Block(base, size, m + 1) <= ms[1..][i] {
        var q :| 0 <= q < n && ms[i + 1] == Block(base, size, q);
        BlockOrder(base, size, m, q);
      }
      FreedAreUnmarked(base, size, m + 1, n, ms[1..]);
      SplitAtMark(base, size, j, m, n, ms);
    }
  }

  lemma FreedAtMark(base: nat, size: nat, j: nat, m: nat, n: nat, ms: seq<nat>)
    requires size > 0 && ms != [] && ms[0] == Block(base, size, m)
    ensures Freed(Block(base, size, j), ms, size, Block(base, size, n)) ==
            Steps(Block(base, size, j), Block(base, size, m), size) + Freed(Block(base, size, m + 1), ms[1..], size, Block(base, size, n))
  {
  }

  // Block k, seen from a first mark on block m.
  lemma SplitMember(base: nat, size: nat, j: nat, m: nat, n: nat, ms: seq<nat>, rest: seq<nat>, k: nat)
    requires size > 0 && j <= m < n && ms != [] && ms[0] == Block(base, size, m) && Ascending(ms)
    requires Block(base, size, k) in rest <==> m + 1 <= k < n && Block(base, size, k) !in ms[1..]
    ensures Block(base, size, k) in Steps(Block(base, size, j), Block(base, size, m), size) + rest <==>
            j <= k < n && Block(base, size, k) !in ms
  {
    StepsAreBlocks(base, size, j, m, k);
    BlockOrder(base, size, k, m);
    BlockOrder(base, size, m, k);
    assert ms == [ms[0]] + ms[1..];
    if k < m { MarksAbove(base, size, m, ms, k); }
    hide Steps, Block, Ascending;
  }

  lemma SplitAtMark(base: nat, size: nat, j: nat, m: nat, n: nat, ms: seq<nat>)
    requires size > 0 && j <= m < n && ms != [] && ms[0] == Block(base, size, m) && Ascending(ms)
    requires FreesUnmarked(base, size, m + 1, n, ms[1..])
    ensures FreesUnmarked(base, size, j, n, ms)
  {
    var run, rest := Steps(Block(base, size, j), Block(base, size, m), size), Freed(Block(base, size, m + 1), ms[1..], size, Block(base, size, n));
    FreedAtMark(base, size, j, m, n, ms);
    StepsAreBlocks(base, size, j, m, 0);
    hide Steps, Freed, Block, Ascending;
    forall k: nat ensures Block(base, size, k) in run + rest <==> j <= k < n && Block(base, size, k) !in ms {
      SplitMember(base, size, j, m, n, ms, rest, k);
    }
    forall a | a in run + rest ensures OnBlock(base, size, n, a) {
      if a in run { assert OnBlock(base, size, m, a); }
    }
  }

  lemma MarksAbove(base: nat, size: nat, m: nat, ms: seq<nat>, k: nat)
    requires size > 0 && ms != [] && ms[0] == Block(base, size, m) && Ascending(ms) && k < m
    ensures Block(base, size, k) !in ms
  {
  }

  lemma {:induction false} StepsAscend(from: nat, limit: nat, size: nat)
    requires size > 0
    ensures Ascending(Steps(from, limit, size))
    decreases limit - from
  {
    if from < limit { StepsAscend(from + size, limit, size); }
  }

  lemma {:induction false} FreedAscend(from: nat, ms: seq<nat>, size: nat, end: nat)
    requires size > 0 && Ascending(ms)
    ensures Ascending(Freed(from, ms, size, end))
    decreases |ms|
  {
    if ms == [] {
      StepsAscend(from, end, size);
    } else {
      hide Freed, Steps, Below, AllAbove;
      var run, rest := Steps(from, ms[0], size), Freed(ms[0] + size, ms[1..], size, end);
      StepsAscend(from, ms[0], size);
      FreedAscend(ms[0] + size, ms[1..], size, end);
      FreedAbove(ms, size, end);
      UnfoldMarks(from, ms, size, end);
      Join(run, rest, ms[0]);
    }
  }

  lemma Join(run: seq<nat>, rest: seq<nat>, m: nat)
    requires Ascending(run) && Ascending(rest) && Below(run, m) && AllAbove(rest, m)
    ensures Ascending(run + rest)
  {
  }

  // ---------------------------------------------------------------------------------------
  // When the sweep is safe
  // ---------------------------------------------------------------------------------------

  predicate Overlaps(f: nat, size: nat, m: nat) {
    f <= m < f + size
  }

  // Each mark lies a multiple of the block size behind the end of the previous one, or before it.
  predicate Spaced(from: nat, ms: seq<nat>, size: nat)
    requires size > 0
    decreases |ms|
  {
    ms != [] ==> (ms[0] <= from || (ms[0] - from) % size == 0) && Spaced(ms[0] + size, ms[1..], size)
  }

  lemma {:induction false} StepsReachMark(from: nat, m: nat, size: nat)
    requires size > 0
    ensures Hits(Steps(from, m, size), size, m) <==> from < m && (m - from) % size != 0
    decreases m - from
  {
    if from < m {
      var rest := Steps(from + size, m, size);
      assert Steps(from, m, size) == [from] + rest && from in [from] + rest;
      assert Overlaps(from, size, m) <==> m < from + size;
      if from + size <= m {
        StepsReachMark(from + size, m, size);
        SubtractOnce(m - from, size);
        hide Steps, Overlaps;
        assert forall f :: f in [from] + rest <==> f == from || f in rest;
      } else {
        Unique(m - from, size, 0, m - from);
      }
    }
  }

  ghost predicate Safe(freed: seq<nat>, ms: seq<nat>, size: nat) {
    forall f, m :: f in freed && m in ms ==> !Overlaps(f, size, m)
  }

  predicate AllAbove(q: seq<nat>, m: nat) {
    forall i :: 0 <= i < |q| ==> m < q[i]
  }

  predicate Hits(q: seq<nat>, size: nat, m: nat) {
    exists f :: f in q && Overlaps(f, size, m)
  }

  lemma FreedAbove(ms: seq<nat>, size: nat, end: nat)
    requires size > 0 && Ascending(ms) && ms != []
    ensures AllAbove(Freed(ms[0] + size, ms[1..], size, end), ms[0]) && AllAbove(ms[1..], ms[0])
  {
    var top := if ms[|ms| - 1] < end then end else ms[|ms| - 1] + 1;
    FreedBounds(ms[0] + size, ms[1..], size, end, top);
  }

  lemma NoMarks(from: nat, size: nat, end: nat)
    requires size > 0
    ensures Safe(Freed(from, [], size, end), [], size) && Spaced(from, [], size)
  {
  }

  lemma AscendingTail(ms: seq<nat>)
    requires Ascending(ms) && ms != []
    ensures Ascending(ms[1..])
  {
  }

  lemma UnfoldMarks(from: nat, ms: seq<nat>, size: nat, end: nat)
    requires size > 0 && ms != []
    ensures Freed(from, ms, size, end) == Steps(from, ms[0], size) + Freed(ms[0] + size, ms[1..], size, end)
    ensures Spaced(from, ms, size) <==> (ms[0] <= from || (ms[0] - from) % size == 0) && Spaced(ms[0] + size, ms[1..], size)
    ensures Below(Steps(from, ms[0], size), ms[0])
  {
  }

  // No block put on the free chain contains a marked address, exactly if the marks are spaced.
  lemma {:induction false} SweepIsSafeIff(from: nat, ms: seq<nat>, size: nat, end: nat)
    requires size > 0 && Ascending(ms)
    ensures Safe(Freed(from, ms, size, end), ms, size) <==> Spaced(from, ms, size)
    decreases |ms|
  {
    hide Freed, Steps, Safe, Spaced, Hits, AllAbove, Below, Ascending;
    if ms == [] {
      NoMarks(from, size, end);
    } else {
      AscendingTail(ms);
      var m, tail := ms[0], ms[1..];
      var run, rest := Steps(from, m, size), Freed(m + size, tail, size, end);
      assert ms == [m] + tail;
      UnfoldMarks(from, ms, size, end);
      FreedAbove(ms, size, end);
      StepsReachMark(from, m, size);
      SafeSplit(run, rest, m, tail, size);
      SweepIsSafeIff(m + size, tail, size, end);
    }
  }

  lemma SafeSplit(run: seq<nat>, rest: seq<nat>, m: nat, tail: seq<nat>, size: nat)
    requires AllAbove(rest, m) && AllAbove(tail, m) && Below(run, m)
    ensures Safe(run + rest, [m] + tail, size) <==> Safe(rest, tail, size) && !Hits(run, size, m)
  {
  }

  // Marks on block boundaries are spaced.
  lemma {:induction false} AlignedIsSpaced(base: nat, size: nat, j: nat, n: nat, ms: seq<nat>)
    requires size > 0 && Ascending(ms) && forall i :: 0 <= i < |ms| ==> OnBlock(base, size, n, ms[i])
    ensures Spaced(Block(base, size, j), ms, size)
    decreases |ms|
  {
    if ms != [] {
      var m :| 0 <= m < n && ms[0] == Block(base, size, m);
      BlockOrder(base, size, m, j);
      BlockOrder(base, size, j, m);
      BlockOrder(base, size, m, m);
      if j < m { Unique(ms[0] - Block(base, size, j), size, m - j, 0); }
      AlignedIsSpaced(base, size, m + 1, n, ms[1..]);
    }
  }

  // ---------------------------------------------------------------------------------------
  // The rebuilt heap
  // ---------------------------------------------------------------------------------------

  // The first n blocks of a free chain, following the links.
  function Walk(links: map<nat, nat>, head: nat, n: nat): seq<nat>
    decreases n
  {
    if n == 0 || head !in links then [] else [head] + Walk(links, links[head], n - 1)
  }

  function Reversed(q: seq<nat>): seq<nat> {
    seq(|q|, i requires 0 <= i < |q| => q[|q| - 1 - i])
  }

  lemma {:induction false} ChainIsWalk(links: map<nat, nat>, head: nat, done: seq<nat>)
    requires Chain(links, head, done)
    ensures Walk(links, head, |done|) == Reversed(done)
    decreases |done|
  {
    if done != [] {
      var n := |done| - 1;
      assert done[n] in links;
      assert Chain(links, links[head], done[..n]);
      ChainIsWalk(links, links[head], done[..n]);
      assert Reversed(done) == [done[n]] + Reversed(done[..n]);
    }
  }

  lemma CountCons(q: seq<nat>, x: nat, on: bool, sb: nat)
    ensures multiset((if on then [x] else []) + q)[sb] == multiset(q)[sb] + if on && x == sb then 1 else 0
  {
  }

  // A superblock is on the partial list of its class once if it has a free block, else on none.
  lemma {:induction false} ListedOnce(descs: seq<Desc>, marks: seq<nat>, n: nat, sc: nat, sb: nat)
    requires n <= |descs| && AllSmall(descs) && 1 <= sb < |descs|
    ensures multiset(PartialOf(descs, marks, n, sc))[sb] == if sb < n && OnList(descs, marks, sb, sc) then 1 else 0
  {
    hide OnList, AllSmall;
    if n > 1 {
      ListedOnce(descs, marks, n - 1, sc, sb);
      CountCons(PartialOf(descs, marks, n - 1, sc), n - 1, OnList(descs, marks, n - 1, sc), sb);
    }
  }

  // The marks of superblock sb are starts of its blocks.
  predicate MarksOnBlocks(marks: seq<nat>, d: Desc, sb: nat) {
    forall a :: a in marks && SbOf(a) == sb ==> OnBlock(SbBase(sb), d.blockSize, d.maxcount, a)
  }

  predicate IsMarked(marks: seq<nat>, d: Desc, sb: nat, k: nat) {
    Block(SbBase(sb), d.blockSize, k) in marks
  }

  lemma SeenAscend(marks: seq<nat>, sb: nat)
    requires Ascending(marks)
    ensures Ascending(Seen(marks, sb))
  {
  }

  // What a superblock frees, in terms of all marks.
  lemma FreedExactly(marks: seq<nat>, d: Desc, sb: nat)
    requires SmallSb(d) && d.inUse && sb >= 1 && Ascending(marks) && MarksOnBlocks(marks, d, sb)
    requires forall i :: 0 <= i < |marks| ==> SbOf(marks[i]) >= 1
    ensures var freed, base := FreedOf(d, sb, Seen(marks, sb)), SbBase(sb);
      && Ascending(freed) && |freed| == d.maxcount - |Seen(marks, sb)|
      && (forall k: nat {:trigger IsMarked(marks, d, sb, k)} ::
            k < d.maxcount ==> (Block(base, d.blockSize, k) in freed <==> !IsMarked(marks, d, sb, k)))
      && (forall a :: a in freed ==> OnBlock(base, d.blockSize, d.maxcount, a))
  {
    hide Seen, Freed, Block, OnBlock, SbOf, Ascending, SbBase, BlocksEnd;
    var ms, base := Seen(marks, sb), SbBase(sb);
    SeenAscend(marks, sb);
    forall a ensures a in ms <==> a in marks && SbOf(a) == sb { SeenAreMarks(marks, sb, a); }
    forall i | 0 <= i < |ms| ensures OnBlock(base, d.blockSize, d.maxcount, ms[i]) && Block(base, d.blockSize, 0) <= ms[i] {
      assert ms[i] in ms;
      FirstBlock(base, d.blockSize, d.maxcount, ms[i]);
    }
    FreedAreUnmarked(base, d.blockSize, 0, d.maxcount, ms);
    EndBlock(d, sb);
    FreedAscend(base, ms, d.blockSize, BlocksEnd(d, sb));
    forall k: nat | k < d.maxcount ensures SbOf(Block(base, d.blockSize, k)) == sb { BlockInSb(d, sb, k); }
  }

  lemma FirstBlock(base: nat, size: nat, n: nat, a: nat)
    requires OnBlock(base, size, n, a)
    ensures Block(base, size, 0) <= a
  {
  }

  lemma EndBlock(d: Desc, sb: nat)
    ensures Block(SbBase(sb), d.blockSize, 0) == SbBase(sb) && Block(SbBase(sb), d.blockSize, d.maxcount) == BlocksEnd(d, sb)
  {
  }

  lemma BlockInSb(d: Desc, sb: nat, k: nat)
    requires SmallSb(d) && d.inUse && k < d.maxcount
    ensures SbOf(Block(SbBase(sb), d.blockSize, k)) == sb
  {
  }

  // A superblock in use that has a mark, its marks on block boundaries and none in superblock 0.
  ghost predicate Sound(marks: seq<nat>, descs: seq<Desc>, sb: nat) {
    && AllSmall(descs) && Ascending(marks) && (forall i :: 0 <= i < |marks| ==> SbOf(marks[i]) >= 1)
    && 1 <= sb < |descs| && SmallSb(descs[sb]) && descs[sb].inUse && MarksOnBlocks(marks, descs[sb], sb)
    && Seen(marks, sb) != []
  }

  lemma SweptSuperblock(marks: seq<nat>, descs: seq<Desc>, links: map<nat, nat>, partial: seq<seq<nat>>,
                        descs': seq<Desc>, links': map<nat, nat>, partial': seq<seq<nat>>, sb: nat)
    requires Sound(marks, descs, sb) && Swept(marks, descs, links, partial, descs', links', partial', |descs|)
    ensures var d, freed := descs[sb], FreedOf(descs[sb], sb, Seen(marks, sb));
      && descs'[sb] == d.(anchor := NewAnchor(d, sb, freed)) && Chain(links', Last(freed), freed)
      && partial'[d.sc] == PartialOf(descs, marks, |descs|, d.sc) && (OnList(descs, marks, sb, d.sc) <==> freed != [])
  {
  }

  // After the sweep count is maxcount minus the marks, and the superblock is FULL iff every block is
  // marked, PARTIAL otherwise.
  lemma RebuiltAnchor(marks: seq<nat>, descs: seq<Desc>, links: map<nat, nat>, partial: seq<seq<nat>>,
                      descs': seq<Desc>, links': map<nat, nat>, partial': seq<seq<nat>>, sb: nat)
    requires Sound(marks, descs, sb) && Swept(marks, descs, links, partial, descs', links', partial', |descs|)
    ensures var d, d' := descs[sb], descs'[sb];
      && d' == d.(anchor := d'.anchor) && d'.anchor.count == d.maxcount - |Seen(marks, sb)|
      && d'.anchor.state == (if forall k: nat :: k < d.maxcount ==> IsMarked(marks, d, sb, k) then FULL else PARTIAL)
  {
    var d := descs[sb];
    var freed := FreedOf(d, sb, Seen(marks, sb));
    SweptSuperblock(marks, descs, links, partial, descs', links', partial', sb);
    FreedExactly(marks, d, sb);
    hide Swept, FreedOf, Seen, IsMarked, Chain, PartialOf, OnList;
    if freed != [] {
      assert freed[0] in freed;
      var k: nat :| k < d.maxcount && freed[0] == Block(SbBase(sb), d.blockSize, k);
      assert !IsMarked(marks, d, sb, k);
    }
  }

  // Otherwise it is on the partial list of its class, once.
  lemma RebuiltListed(marks: seq<nat>, descs: seq<Desc>, links: map<nat, nat>, partial: seq<seq<nat>>,
                      descs': seq<Desc>, links': map<nat, nat>, partial': seq<seq<nat>>, sb: nat)
    requires Sound(marks, descs, sb) && Swept(marks, descs, links, partial, descs', links', partial', |descs|)
    ensures 0 < descs[sb].sc < |partial'|
    ensures multiset(partial'[descs[sb].sc])[sb] == if descs'[sb].anchor.state == PARTIAL then 1 else 0
  {
    SweptSuperblock(marks, descs, links, partial, descs', links', partial', sb);
    ListedOnce(descs, marks, |descs|, descs[sb].sc, sb);
    assert |partial'| == NLIST;
    hide Swept, FreedOf, Seen, Chain, PartialOf, OnList;
  }

  // The chain from its anchor visits precisely the unmarked blocks, once each, in descending order.
  lemma RebuiltChain(marks: seq<nat>, descs: seq<Desc>, links: map<nat, nat>, partial: seq<seq<nat>>,
                     descs': seq<Desc>, links': map<nat, nat>, partial': seq<seq<nat>>, sb: nat)
    requires Sound(marks, descs, sb) && Swept(marks, descs, links, partial, descs', links', partial', |descs|)
    requires descs'[sb].anchor.state == PARTIAL
    ensures var d, base, anchor := descs[sb], SbBase(sb), descs'[sb].anchor;
      var chain := Walk(links', Block(base, d.blockSize, anchor.avail), anchor.count);
      && |chain| == anchor.count && (forall i, j :: 0 <= i < j < |chain| ==> chain[i] > chain[j])
      && (forall a :: a in chain ==> OnBlock(base, d.blockSize, d.maxcount, a))
      && forall k: nat {:trigger IsMarked(marks, d, sb, k)} ::
           k < d.maxcount ==> (Block(base, d.blockSize, k) in chain <==> !IsMarked(marks, d, sb, k))
  {
    var d, base := descs[sb], SbBase(sb);
    var freed := FreedOf(d, sb, Seen(marks, sb));
    SweptSuperblock(marks, descs, links, partial, descs', links', partial', sb);
    FreedExactly(marks, d, sb);
    hide Swept, FreedOf, Seen, Chain, PartialOf, OnList, IsMarked;
    assert freed != [] && Last(freed) in freed;
    AvailIsHead(d, sb, Last(freed));
    ChainIsWalk(links', Last(freed), freed);
    ReversedMembers(freed);
    hide Walk, OnBlock, Block;
  }

  lemma AvailIsHead(d: Desc, sb: nat, a: nat)
    requires d.blockSize > 0 && OnBlock(SbBase(sb), d.blockSize, d.maxcount, a)
    ensures Block(SbBase(sb), d.blockSize, IndexIn(sb, a, d.blockSize)) == a
  {
    var k :| 0 <= k < d.maxcount && a == Block(SbBase(sb), d.blockSize, k);
    Unique(k * d.blockSize, d.blockSize, k, 0);
  }

  lemma ReversedMembers(q: seq<nat>)
    ensures forall a :: a in Reversed(q) <==> a in q
    ensures Ascending(q) ==> forall i, j :: 0 <= i < j < |q| ==> Reversed(q)[i] > Reversed(q)[j]
  {
    forall a | a in q ensures a in Reversed(q) {
      var i :| 0 <= i < |q| && q[i] == a;
      assert Reversed(q)[|q| - 1 - i] == a;
    }
  }

  // Marked blocks are never written.
  lemma MarkedIsUntouched(marks: seq<nat>, descs: seq<Desc>, links: map<nat, nat>, partial: seq<seq<nat>>,
                          descs': seq<Desc>, links': map<nat, nat>, partial': seq<seq<nat>>, sb: nat, a: nat)
    requires Sound(marks, descs, sb) && Swept(marks, descs, links, partial, descs', links', partial', |descs|)
    requires a in marks && SbOf(a) == sb && a in links
    ensures a in links' && links'[a] == links[a]
  {
    FreedExactly(marks, descs[sb], sb);
    hide Seen, FreedOf;
    var k: nat :| k < descs[sb].maxcount && a == Block(SbBase(sb), descs[sb].blockSize, k);
    assert IsMarked(marks, descs[sb], sb, k);
    assert !IsFreed(marks, descs, a);
  }

  // A superblock that sees no mark, or is not in use, is given back: its descriptor is erased.
  lemma UnmarkedIsErased(marks: seq<nat>, descs: seq<Desc>, links: map<nat, nat>, partial: seq<seq<nat>>,
                         descs': seq<Desc>, links': map<nat, nat>, partial': seq<seq<nat>>, sb: nat, sc: nat)
    requires AllSmall(descs) && 1 <= sb < |descs| && Swept(marks, descs, links, partial, descs', links', partial', |descs|)
    requires (!descs[sb].inUse || Seen(marks, sb) == []) && sc < NLIST
    ensures descs'[sb] == FRESH && |partial'| == NLIST && sb !in partial'[sc]
  {
    assert partial'[sc] == PartialOf(descs, marks, |descs|, sc);
    ListedOnce(descs, marks, |descs|, sc, sb);
    hide PartialOf, FreedOf;
    assert descs'[sb] == SweptDesc(descs[sb], sb, Seen(marks, sb));
  }

  // --- marks inside blocks ------------------------------------------------------------------------------

  // A superblock of 64-byte blocks; a pointer into the middle of block 0 and one to block 3.
  const INSIDE: seq<nat> := [SBSIZE + 40, SBSIZE + 192]
  const HEAP: seq<Desc> := [FRESH, Desc(true, 7, 64, 1024, Anchor(0, 0, ERROR))]

  // The sweep overwrites the first word of block 0 and puts a block on the chain that overlaps block 3.
  lemma InteriorMark(links: map<nat, nat>, partial: seq<seq<nat>>, descs': seq<Desc>, links': map<nat, nat>, partial': seq<seq<nat>>)
    requires AllSmall(HEAP) && Swept(INSIDE, HEAP, links, partial, descs', links', partial', |HEAP|)
    ensures Ascending(INSIDE) && !Spaced(SBSIZE, INSIDE, 64)
    ensures var block0, straddling := SBSIZE, SBSIZE + 168;
      && IsFreed(INSIDE, HEAP, block0) && block0 in links' && links'[block0] == NULL && Overlaps(block0, 64, INSIDE[0])
      && IsFreed(INSIDE, HEAP, straddling) && straddling in links' && links'[straddling] == SBSIZE + 104
      && Overlaps(straddling, 64, INSIDE[1])
  {
    InsideSeen();
    InsideFreed();
    hide Freed, Seen, PartialOf;
    assert ChainOf(HEAP[1], links', 1, Seen(INSIDE, 1));
  }

  lemma InsideSeen()
    ensures Seen(INSIDE, 1) == INSIDE
  {
    assert RunEnd(INSIDE, 2, 1) == 2 && RunEnd(INSIDE, 1, 1) == 2 && RunEnd(INSIDE, 0, 1) == 2;
  }

  lemma InsideFreed()
    ensures var freed := Freed(SBSIZE, INSIDE, 64, 2 * SBSIZE);
      |freed| > 2 && freed[0] == SBSIZE && freed[1] == SBSIZE + 104 && freed[2] == SBSIZE + 168
  {
    var tail := [SBSIZE + 192];
    assert INSIDE[1..] == tail;
    assert Steps(SBSIZE, SBSIZE + 40, 64) == [SBSIZE];
    assert Steps(SBSIZE + 168, SBSIZE + 192, 64) == [SBSIZE + 168];
    assert Steps(SBSIZE + 104, SBSIZE + 192, 64) == [SBSIZE + 104, SBSIZE + 168];
    hide Steps;
    assert Freed(SBSIZE + 104, tail, 64, 2 * SBSIZE) == Steps(SBSIZE + 104, SBSIZE + 192, 64) + Freed(SBSIZE + 256, tail[1..], 64, 2 * SBSIZE);
  }
}
