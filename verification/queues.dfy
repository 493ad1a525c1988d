/** The ready, waiting and terminated queues as sequences of process ids,
    head first. Each sequence is the chain of `next` links from `first`; the
    Links module shows that the two views agree while no process is linked
    twice. */
module Queues {
  import opened ProcStructs

  type Queue = seq<ProcId>

  /** enqueue_pcb: a process goes to the tail; a NULL process changes nothing. */
  function Enqueue(q: Queue, p: Option<ProcId>): (r: Queue)
    ensures p.None? ==> r == q
    ensures p.Some? ==> |r| == |q| + 1 && r[..|q|] == q && r[|q|] == p.value
    ensures multiset(r) == multiset(q) + (if p.Some? then multiset{p.value} else multiset{})
  {
    match p
    case None => q
    case Some(x) =>
      assert (q + [x])[..|q|] == q;
      q + [x]
  }

  /** dequeue_pcb: the head and the rest of the queue, or NULL on an empty one. */
  function Dequeue(q: Queue): (r: (Option<ProcId>, Queue))
    ensures q == [] <==> r.0.None?
    ensures q == [] ==> r.1 == []
    ensures q != [] ==> r.0 == Some(q[0]) && [q[0]] + r.1 == q
  {
    if q == [] then (None, []) else (Some(q[0]), q[1..])
  }

  /** First in, first out: a process enqueued on an empty queue is the next
      one out, and on a non-empty one it does not overtake the head. */
  lemma {:induction false} EnqueueDequeueFifo(q: Queue, p: ProcId)
    ensures q == [] ==> Dequeue(Enqueue(q, Some(p))) == (Some(p), [])
    ensures q != [] ==> Dequeue(Enqueue(q, Some(p))) == (Some(q[0]), Enqueue(Dequeue(q).1, Some(p)))
  {
    if q != [] {
      assert (q + [p])[1..] == q[1..] + [p];
    }
  }
}
