/** The queues at the level of pointers: pcb_queue_t is a pair of first and
    last pointers, and the chain runs through the single `next` field every
    process control block has. The heap maps each process to its `next`. */
module Links {
  import opened ProcStructs
  import opened Seqs
  import Queues

  type Heap = map<ProcId, Option<ProcId>>

  /** pcb_queue_t. */
  datatype PcbQueue = PcbQueue(first: Option<ProcId>, last: Option<ProcId>)

  /** The chain from `first` visits exactly the processes of `s`, in order,
      ends at `last` and is NULL-terminated. */
  predicate Chain(h: Heap, q: PcbQueue, s: seq<ProcId>) {
    && Distinct(s)
    && (forall k :: 0 <= k < |s| ==> s[k] in h)
    && (if s == [] then q.first.None? && q.last.None?
        else
          && q.first == Some(s[0])
          && q.last == Some(s[|s| - 1])
          && h[s[|s| - 1]] == None
          && (forall k :: 0 <= k < |s| - 1 ==> h[s[k]] == Some(s[k + 1])))
  }

  /** The C code dereferences `last` whenever `first` is set. */
  predicate WellFormed(h: Heap, q: PcbQueue) {
    (q.first.Some? ==> q.first.value in h && q.last.Some? && q.last.value in h)
    && (q.first.None? ==> q.last.None?)
  }

  /** enqueue_pcb: clears the new process's link, then hangs it after
      `last`. A NULL process or a NULL queue changes nothing. */
  function EnqueuePcb(h: Heap, p: Option<ProcId>, q: Option<PcbQueue>): (r: (Heap, Option<PcbQueue>))
    requires q.Some? ==> WellFormed(h, q.value)
    ensures r.1.Some? <==> q.Some?
    ensures p.None? || q.None? ==> r == (h, q)
    ensures p.Some? && q.Some? ==> r.1.value.first.Some? && r.1.value.last == p && WellFormed(r.0, r.1.value)
  {
    if p.None? || q.None? then (h, q)
    else
      var x := p.value;
      var h1 := h[x := None];
      if q.value.first.None? then (h1, Some(PcbQueue(p, p)))
      else (h1[q.value.last.value := p], Some(PcbQueue(q.value.first, p)))
  }

  /** dequeue_pcb: unlinks the head and clears its link; the queue's `last`
      is cleared when it empties. */
  function DequeuePcb(h: Heap, q: Option<PcbQueue>): (r: (Heap, Option<PcbQueue>, Option<ProcId>))
    requires q.Some? ==> WellFormed(h, q.value)
    ensures r.1.Some? <==> q.Some?
    ensures q.None? || q.value.first.None? ==> r == (h, q, None)
    ensures q.Some? ==> (r.1.value.first.None? <==> r.1.value.last.None?)
  {
    if q.None? || q.value.first.None? then (h, q, None)
    else
      var x := q.value.first.value;
      var nx := h[x];
      (h[x := None], Some(PcbQueue(nx, if nx.None? then None else q.value.last)), Some(x))
  }

  /** Appending a process that is in no queue yet: the chain grows by one at
      the tail, exactly as the sequence model's Enqueue does, and only the
      links of the new process and of the old tail change. */
  lemma EnqueueExtendsChain(h: Heap, q: PcbQueue, s: seq<ProcId>, p: ProcId)
    requires Chain(h, q, s)
    requires p !in s
    ensures WellFormed(h, q)
    ensures Chain(EnqueuePcb(h, Some(p), Some(q)).0, EnqueuePcb(h, Some(p), Some(q)).1.value, Queues.Enqueue(s, Some(p)))
    ensures forall x :: x in h && x != p && (s == [] || x != s[|s| - 1]) ==> EnqueuePcb(h, Some(p), Some(q)).0[x] == h[x]
  {
    var r := EnqueuePcb(h, Some(p), Some(q));
    var t := s + [p];
    assert Queues.Enqueue(s, Some(p)) == t;
    if s != [] {
      assert forall k :: 0 <= k < |t| - 1 ==> r.0[t[k]] == Some(t[k + 1]) by {
        forall k | 0 <= k < |t| - 1
          ensures r.0[t[k]] == Some(t[k + 1])
        {
          if k < |s| - 1 {
            assert t[k] == s[k] && t[k + 1] == s[k + 1];
            assert s[k] != s[|s| - 1];
          }
        }
      }
    }
    assert Distinct(t);
  }

  /** Taking the head off a chain leaves the chain of the rest, as the
      sequence model's Dequeue does. */
  lemma DequeueShortensChain(h: Heap, q: PcbQueue, s: seq<ProcId>)
    requires Chain(h, q, s)
    ensures WellFormed(h, q)
    ensures s == [] ==> DequeuePcb(h, Some(q)).2.None?
    ensures s != [] ==>
      var r := DequeuePcb(h, Some(q));
      r.2 == Queues.Dequeue(s).0 && Chain(r.0, r.1.value, Queues.Dequeue(s).1)
  {
    if s != [] {
      var r := DequeuePcb(h, Some(q));
      var t := s[1..];
      assert forall k :: 0 <= k < |t| ==> t[k] != s[0];
      if t != [] {
        assert h[s[0]] == Some(s[1]);
        assert forall k :: 0 <= k < |t| - 1 ==> r.0[t[k]] == Some(t[k + 1]) by {
          forall k | 0 <= k < |t| - 1
            ensures r.0[t[k]] == Some(t[k + 1])
          {
            assert t[k] == s[k + 1] && t[k + 1] == s[k + 2];
          }
        }
      } else {
        assert h[s[0]] == None;
      }
      assert Distinct(t);
    }
  }

  /** Enqueueing the process that is already the tail makes it link to
      itself: the chain no longer ends, so no sequence describes the queue.
      The first-come-first-served loop does this to every process that
      blocks (it is put on the waiting queue once by the request and again by
      the loop). */
  lemma {:induction false} EnqueueTailAgainCycles(h: Heap, q: PcbQueue, s: seq<ProcId>)
    requires Chain(h, q, s)
    requires s != []
    ensures WellFormed(h, q)
    ensures
      var r := EnqueuePcb(h, Some(s[|s| - 1]), Some(q));
      && r.0[s[|s| - 1]] == Some(s[|s| - 1])
      && r.1.value.last == Some(s[|s| - 1])
      && forall t :: !Chain(r.0, r.1.value, t)
  {
    var p := s[|s| - 1];
    var r := EnqueuePcb(h, Some(p), Some(q));
    forall t
      ensures !Chain(r.0, r.1.value, t)
    {
      if t != [] && r.1.value.last == Some(t[|t| - 1]) {
        assert t[|t| - 1] == p;
      }
    }
  }

  /** Two queues whose chains end at the same process share that process's
      one `next` field. The priority loop leaves a blocked and preempted
      process as the tail of both the waiting and the ready queue; the next
      enqueue on either queue writes that field, and the other queue, though
      its own order has no repeat, is then the chain of no sequence at all. */
  lemma SharedTailSplices(h: Heap, q1: PcbQueue, s1: seq<ProcId>, q2: PcbQueue, s2: seq<ProcId>, p: ProcId)
    requires Chain(h, q1, s1) && Chain(h, q2, s2)
    requires s1 != [] && s2 != [] && s1[|s1| - 1] == s2[|s2| - 1]
    ensures WellFormed(h, q2)
    ensures EnqueuePcb(h, Some(p), Some(q2)).0[s1[|s1| - 1]] == Some(p)
    ensures forall t :: !Chain(EnqueuePcb(h, Some(p), Some(q2)).0, q1, t)
  {
    var x := s1[|s1| - 1];
    var r := EnqueuePcb(h, Some(p), Some(q2));
    assert r.0[x] == Some(p);
    forall t
      ensures !Chain(r.0, q1, t)
    {
      if t != [] && q1.last == Some(t[|t| - 1]) {
        assert t[|t| - 1] == x;
      }
    }
  }
}
