/** The FIFO queue that the two concurrent queues refine. */
module Fifo {

  import opened Common

  // What a step of a queue does at its linearization point.
  datatype Event = Tau | Enq(v: int) | Deq(v: int) | SawEmpty

  predicate FifoStep(q: seq<int>, e: Event, q': seq<int>) {
    match e
    case Tau => q' == q
    case Enq(v) => q' == q + [v]
    case Deq(v) => q != [] && v == q[0] && q' == q[1..]
    case SawEmpty => q == [] && q' == q
  }

  function Given(e: Event): seq<int> {
    if e.Enq? then [e.v] else []
  }

  function Taken(e: Event): seq<int> {
    if e.Deq? then [e.v] else []
  }

  // The values enqueued and dequeued by a sequence of events.
  function Enqueued(es: seq<Event>): seq<int> {
    if es == [] then [] else Enqueued(es[..|es| - 1]) + Given(es[|es| - 1])
  }

  function Dequeued(es: seq<Event>): seq<int> {
    if es == [] then [] else Dequeued(es[..|es| - 1]) + Taken(es[|es| - 1])
  }

  lemma NoEvents()
    ensures Enqueued([]) == [] && Dequeued([]) == []
  {
  }

  // One more event keeps the account: what went in is what came out, in the same order, and the queue.
  lemma FifoAccounts(es: seq<Event>, q: seq<int>, e: Event, q': seq<int>)
    requires Enqueued(es) == Dequeued(es) + q && FifoStep(q, e, q')
    ensures Enqueued(es + [e]) == Dequeued(es + [e]) + q' && Enqueued(es + [e]) == Enqueued(es) + Given(e)
  {
    assert (es + [e])[..|es|] == es;
  }

  // --- calls ---------------------------------------------------------------------------------------

  datatype Call = Put(v: int) | Take

  function Effect(e: Event): seq<Event> {
    if e.Enq? || e.Deq? then [e] else []
  }

  // The events a call caused and the value it returned are those of one operation: a put enqueues its
  // argument, a take dequeues what it returns, or returns nothing and dequeues nothing.
  predicate Served(c: Call, es: seq<Event>, ret: Option<int>) {
    match c
    case Put(v) => es == [Enq(v)]
    case Take => es == if ret.Some? then [Deq(ret.value)] else []
  }
}
