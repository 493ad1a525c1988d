/** Reference definitions of the two wake-up scans as plain filters of the
    waiting queue, and the proofs that the walks compute them whenever the
    waiting queue lists no process twice. */
module WakeUp {
  import opened ProcStructs
  import opened Seqs
  import opened Queues
  import opened Ledger
  import opened Manager

  /** The processes of `w` that `pred` accepts, in queue order. */
  function Matching(procs: seq<Pcb>, w: Queue, pred: Pcb -> bool): (r: Queue)
    requires InRange(w, |procs|)
    ensures InRange(r, |procs|)
  {
    if w == [] then []
    else (if pred(procs[w[0]]) then [w[0]] else []) + Matching(procs, w[1..], pred)
  }

  /** The processes of `w` that `pred` rejects, in queue order. */
  function NotMatching(procs: seq<Pcb>, w: Queue, pred: Pcb -> bool): (r: Queue)
    requires InRange(w, |procs|)
    ensures InRange(r, |procs|)
  {
    if w == [] then []
    else (if pred(procs[w[0]]) then [] else [w[0]]) + NotMatching(procs, w[1..], pred)
  }

  /** The "ready" lines logged for `ids`, in order. */
  function ReadyLog(procs: seq<Pcb>, ids: Queue): (r: seq<Event>)
    requires InRange(ids, |procs|)
    ensures |r| == |ids|
    ensures forall k :: 0 <= k < |ids| ==> r[k] == LogReady(procs[ids[k]].name)
  {
    if ids == [] then [] else [LogReady(procs[ids[0]].name)] + ReadyLog(procs, ids[1..])
  }

  /** The filters only look at the records of the processes they are given. */
  lemma {:induction false} FiltersAgree(a: seq<Pcb>, b: seq<Pcb>, w: Queue, pred: Pcb -> bool)
    requires InRange(w, |a|) && InRange(w, |b|)
    requires forall k :: 0 <= k < |w| ==> a[w[k]] == b[w[k]]
    ensures Matching(a, w, pred) == Matching(b, w, pred)
    ensures NotMatching(a, w, pred) == NotMatching(b, w, pred)
  {
    if w != [] {
      FiltersAgree(a, b, w[1..], pred);
    }
  }

  /** Logged lines carry only names, which the walks never change. */
  lemma {:induction false} ReadyLogNames(a: seq<Pcb>, b: seq<Pcb>, ids: Queue)
    requires SameButStates(a, b) && InRange(ids, |a|)
    ensures ReadyLog(a, ids) == ReadyLog(b, ids)
  {
    if ids != [] {
      assert b[ids[0]] == a[ids[0]].(state := b[ids[0]].state);
      ReadyLogNames(a, b, ids[1..]);
    }
  }

  /** The process table after the processes of `ids` are made READY, one
      after the other. */
  function SetReady(procs: seq<Pcb>, ids: Queue): (r: seq<Pcb>)
    requires InRange(ids, |procs|)
    ensures |r| == |procs|
    decreases |ids|
  {
    if ids == [] then procs
    else SetReady(procs[ids[0] := procs[ids[0]].(state := Ready)], ids[1..])
  }

  lemma {:induction false} SetReadyEffect(procs: seq<Pcb>, ids: Queue)
    requires InRange(ids, |procs|)
    ensures forall q :: 0 <= q < |procs| ==>
      SetReady(procs, ids)[q] == (if q in ids then procs[q].(state := Ready) else procs[q])
    decreases |ids|
  {
    if ids != [] {
      var p := ids[0];
      SetReadyEffect(procs[p := procs[p].(state := Ready)], ids[1..]);
      assert forall q :: q in ids <==> q == p || q in ids[1..];
    }
  }

  /** Membership in the two halves of the split. */
  lemma {:induction false} FilterMembers(procs: seq<Pcb>, w: Queue, pred: Pcb -> bool)
    requires InRange(w, |procs|)
    ensures forall x :: x in Matching(procs, w, pred) <==> x in w && x < |procs| && pred(procs[x])
    ensures forall x :: x in NotMatching(procs, w, pred) <==> x in w && x < |procs| && !pred(procs[x])
  {
    if w != [] {
      FilterMembers(procs, w[1..], pred);
      assert forall x :: x in w <==> x == w[0] || x in w[1..];
    }
  }

  /** `r` is what the filter reference says the walk over `rest` gives. */
  predicate IsFilterResult(s: Sys, rest: Queue, kept: Queue, pred: Pcb -> bool, r: Sys)
    requires InRange(rest, |s.procs|)
  {
    var m := Matching(s.procs, rest, pred);
    && r.ready == s.ready + m
    && r.waiting == kept + NotMatching(s.procs, rest, pred)
    && r.trace == s.trace + ReadyLog(s.procs, m)
    && r.procs == SetReady(s.procs, m)
  }

  /** On a queue without repetitions the walk is the filter: the accepted
      processes go to the ready tail in queue order as READY, each logged
      once, and the rejected ones stay waiting in order, untouched. */
  lemma {:induction false} MoveMatchingIsFilter(s: Sys, rest: Queue, kept: Queue, pred: Pcb -> bool)
    requires ValidIds(s) && InRange(rest, |s.procs|) && InRange(kept, |s.procs|)
    requires Distinct(rest)
    ensures IsFilterResult(s, rest, kept, pred, MoveMatching(s, rest, kept, pred))
    decreases |rest|
  {
    if rest != [] {
      var p := rest[0];
      var t := rest[1..];
      assert Distinct(t);
      if pred(s.procs[p]) {
        var s1 := MoveProcToRq(s, p);
        MoveMatchingIsFilter(s1, t, kept, pred);
        AcceptStep(s, rest, kept, pred, MoveMatching(s1, t, kept, pred));
      } else {
        MoveMatchingIsFilter(s, t, kept + [p], pred);
        RejectStep(s, rest, kept, pred, MoveMatching(s, t, kept + [p], pred));
      }
    }
  }

  /** Accepting the head of `rest`: what the filters say about `rest` on
      the table `a` is what they say about the tail on the table `b` where
      the head has been made READY. */
  lemma AcceptSplit(a: seq<Pcb>, b: seq<Pcb>, rest: Queue, pred: Pcb -> bool)
    requires InRange(rest, |a|) && Distinct(rest) && rest != []
    requires pred(a[rest[0]])
    requires b == a[rest[0] := a[rest[0]].(state := Ready)]
    ensures Matching(a, rest, pred) == [rest[0]] + Matching(b, rest[1..], pred)
    ensures NotMatching(a, rest, pred) == NotMatching(b, rest[1..], pred)
    ensures ReadyLog(a, Matching(a, rest, pred)) == [LogReady(a[rest[0]].name)] + ReadyLog(b, Matching(b, rest[1..], pred))
    ensures SetReady(a, Matching(a, rest, pred)) == SetReady(b, Matching(b, rest[1..], pred))
  {
    var p := rest[0];
    var t := rest[1..];
    assert p !in t;
    assert forall k :: 0 <= k < |t| ==> b[t[k]] == a[t[k]];
    FiltersAgree(b, a, t, pred);
    var m' := Matching(a, t, pred);
    assert SameButStates(a, b);
    ReadyLogNames(a, b, m');
    assert ([p] + m')[1..] == m';
  }

  lemma AcceptStep(s: Sys, rest: Queue, kept: Queue, pred: Pcb -> bool, r: Sys)
    requires ValidIds(s) && InRange(rest, |s.procs|) && Distinct(rest) && rest != []
    requires pred(s.procs[rest[0]])
    requires IsFilterResult(MoveProcToRq(s, rest[0]), rest[1..], kept, pred, r)
    ensures IsFilterResult(s, rest, kept, pred, r)
  {
    var p := rest[0];
    var s1 := MoveProcToRq(s, p);
    AcceptSplit(s.procs, s1.procs, rest, pred);
    var m' := Matching(s1.procs, rest[1..], pred);
    AppendAssoc(s.ready, [p], m');
    AppendAssoc(s.trace, [LogReady(s.procs[p].name)], ReadyLog(s1.procs, m'));
  }

  lemma RejectStep(s: Sys, rest: Queue, kept: Queue, pred: Pcb -> bool, r: Sys)
    requires ValidIds(s) && InRange(rest, |s.procs|) && rest != []
    requires !pred(s.procs[rest[0]])
    requires IsFilterResult(s, rest[1..], kept + [rest[0]], pred, r)
    ensures IsFilterResult(s, rest, kept, pred, r)
  {
    var p := rest[0];
    var t := rest[1..];
    var nm := NotMatching(s.procs, t, pred);
    var m := Matching(s.procs, t, pred);
    assert Matching(s.procs, rest, pred) == [] + m;
    assert [] + m == m;
    assert NotMatching(s.procs, rest, pred) == [p] + nm;
    AppendAssoc(kept, [p], nm);
  }

  /** The walk over the whole waiting queue, as the filter reference. */
  lemma WaitingWalk(s: Sys, pred: Pcb -> bool)
    requires ValidIds(s) && Distinct(s.waiting)
    ensures var r := MoveMatching(s, s.waiting, [], pred);
      && IsFilterResult(s, s.waiting, [], pred, r)
      && r.ledger == s.ledger && r.terminated == s.terminated && r.arrivals == s.arrivals
  {
    MoveMatchingIsFilter(s, s.waiting, [], pred);
    MoveMatchingFrame(s, s.waiting, [], pred);
  }

  /** Process by process: every waiting process the test accepts ends up
      READY in the ready queue and out of the waiting queue; every other one
      stays waiting with its record untouched. */
  lemma WaitingWalkMembers(s: Sys, pred: Pcb -> bool)
    requires ValidIds(s) && Distinct(s.waiting)
    ensures var r := MoveMatching(s, s.waiting, [], pred);
      && (forall x :: x in s.waiting && pred(s.procs[x]) ==>
            x in r.ready && x !in r.waiting && r.procs[x].state == Ready)
      && (forall x :: x in s.waiting && !pred(s.procs[x]) ==>
            x in r.waiting && r.procs[x] == s.procs[x])
  {
    WaitingWalk(s, pred);
    FilterMembers(s.procs, s.waiting, pred);
    var m := Matching(s.procs, s.waiting, pred);
    SetReadyEffect(s.procs, m);
    var r := MoveMatching(s, s.waiting, [], pred);
    forall x | x in s.waiting && pred(s.procs[x])
      ensures x in r.ready
    {
      assert x in m;
      assert r.ready == s.ready + m;
    }
  }

  /** The broadcast wake-up after a release, stated on the waiting queue: a
      waiting process moves to the ready queue exactly when it is WAITING
      with a request for `n` somewhere ahead of it. */
  lemma WakeUpOnRelease(s: Sys, n: string)
    requires ValidIds(s) && Distinct(s.waiting)
    ensures var r := MoveWaitingPcbsToRq(s, n);
      var woken := Matching(s.procs, s.waiting, pcb => IsWaitingForResource(pcb, n));
      && r.ready == s.ready + woken
      && r.waiting == NotMatching(s.procs, s.waiting, pcb => IsWaitingForResource(pcb, n))
      && r.trace == s.trace + ReadyLog(s.procs, woken)
      && (forall x :: x in s.waiting && IsWaitingForResource(s.procs[x], n) ==>
            x in r.ready && x !in r.waiting && r.procs[x].state == Ready)
      && (forall x :: x in s.waiting && !IsWaitingForResource(s.procs[x], n) ==>
            x in r.waiting && r.procs[x] == s.procs[x])
      && r.ledger == s.ledger && r.terminated == s.terminated && r.arrivals == s.arrivals
  {
    var pred := pcb => IsWaitingForResource(pcb, n);
    WaitingWalk(s, pred);
    WaitingWalkMembers(s, pred);
  }

  /** The resource-based wake-up, stated on the waiting queue: a waiting
      process moves exactly when the resource named by its next instruction
      has an available first record. */
  lemma WakeUpOnAvailability(s: Sys)
    requires ValidIds(s) && Distinct(s.waiting)
    ensures var r := MoveWaitingToReadyBasedOnResources(s);
      var woken := Matching(s.procs, s.waiting, pcb => CanResume(pcb, s.ledger));
      && r.ready == s.ready + woken
      && r.waiting == NotMatching(s.procs, s.waiting, pcb => CanResume(pcb, s.ledger))
      && r.trace == s.trace + ReadyLog(s.procs, woken)
      && (forall x :: x in s.waiting && CanResume(s.procs[x], s.ledger) ==>
            x in r.ready && x !in r.waiting && r.procs[x].state == Ready)
      && (forall x :: x in s.waiting && !CanResume(s.procs[x], s.ledger) ==>
            x in r.waiting && r.procs[x] == s.procs[x])
      && r.ledger == s.ledger && r.terminated == s.terminated && r.arrivals == s.arrivals
  {
    var l := s.ledger;
    var pred := pcb => CanResume(pcb, l);
    WaitingWalk(s, pred);
    WaitingWalkMembers(s, pred);
  }
}
