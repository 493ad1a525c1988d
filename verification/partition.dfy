/** Where the processes are. Between two passes of a scheduler loop every
    process the manager knows of is in exactly one place: the ready queue,
    the waiting queue, the terminated queue, the loader's list of arrivals
    still to come, or the loop's current process. The queue a process is in
    agrees with its state. Every pass that does not block a process on a
    request keeps this. The first-come-first-served loop breaks it at every
    blocking request; the priority loop breaks it when the process that has
    just blocked is then preempted. */
module Partition {
  import opened ProcStructs
  import opened Seqs
  import opened Queues
  import opened Ledger
  import opened Manager
  import opened WakeUp
  import opened Scheduler

  /** The processes the loader has still to hand out. */
  function Pending(a: seq<Option<ProcId>>): multiset<ProcId>
    decreases |a|
  {
    if a == [] then multiset{}
    else (if a[0].Some? then multiset{a[0].value} else multiset{}) + Pending(a[1..])
  }

  /** The current process, counted here unless it is WAITING (a blocked
      current process is counted in the waiting queue instead). */
  function Slot(c: Cpu): multiset<ProcId>
    requires ValidCpu(c)
  {
    if c.cur.Some? && c.s.procs[c.cur.value].state != Waiting then multiset{c.cur.value} else multiset{}
  }

  function Members(c: Cpu): multiset<ProcId>
    requires ValidCpu(c)
  {
    multiset(c.s.ready) + multiset(c.s.waiting) + multiset(c.s.terminated) + Pending(c.s.arrivals) + Slot(c)
  }

  ghost predicate Unique(m: multiset<ProcId>) {
    forall x :: m[x] <= 1
  }

  predicate Queued(st: State) {
    st == New || st == Ready
  }

  /** Each queue holds processes in the state it stands for; the current
      process is RUNNING, or WAITING and already on the waiting queue. */
  predicate StatesAgree(c: Cpu)
    requires ValidCpu(c)
  {
    && (forall x :: x in c.s.ready ==> x < |c.s.procs| && Queued(c.s.procs[x].state))
    && (forall x :: x in c.s.waiting ==> x < |c.s.procs| && c.s.procs[x].state == Waiting)
    && (forall x :: x in c.s.terminated ==> x < |c.s.procs| && c.s.procs[x].state == Terminated)
    && (c.cur.Some? ==>
          || c.s.procs[c.cur.value].state == Running
          || (c.s.procs[c.cur.value].state == Waiting && c.cur.value in c.s.waiting))
  }

  ghost predicate Partitioned(c: Cpu) {
    ValidCpu(c) && Unique(Members(c)) && StatesAgree(c)
  }

  /** The partition with a current process, if any, that is RUNNING: what
      holds at the top of every pass of the first-come-first-served loop. */
  ghost predicate RunningCur(c: Cpu) {
    Partitioned(c) && (c.cur.Some? ==> c.s.procs[c.cur.value].state == Running)
  }

  /** The next instruction of `p` is a request that cannot be granted. */
  predicate Blocks(s: Sys, p: ProcId)
    requires p < |s.procs|
  {
    var i := NextInstr(s.procs[p]);
    i.Some? && i.value.Req? && FirstAvailable(s.ledger, i.value.resourceName).None?
  }

  /** The current process is RUNNING and about to block. */
  predicate BlocksNow(c: Cpu)
    requires ValidCpu(c)
  {
    c.cur.Some? && c.s.procs[c.cur.value].state == Running && Blocks(c.s, c.cur.value)
  }

  // ---------------------------------------------------------------------
  // Consequences of the partition

  /** A process counted once is in one place only; in particular no queue
      lists a process twice. */
  lemma Apart(c: Cpu)
    requires ValidCpu(c) && Unique(Members(c))
    ensures Distinct(c.s.ready) && Distinct(c.s.waiting) && Distinct(c.s.terminated)
    ensures forall x :: x in c.s.waiting ==>
      x !in c.s.ready && x !in c.s.terminated && x !in Pending(c.s.arrivals) && x !in Slot(c)
    ensures forall x :: x in c.s.ready ==>
      x !in c.s.terminated && x !in Pending(c.s.arrivals) && x !in Slot(c)
    ensures forall x :: x in c.s.terminated ==> x !in Pending(c.s.arrivals) && x !in Slot(c)
    ensures forall x :: x in Pending(c.s.arrivals) ==> x !in Slot(c)
  {
    var m := Members(c);
    forall y
      ensures multiset(c.s.ready)[y] <= 1 && multiset(c.s.waiting)[y] <= 1 && multiset(c.s.terminated)[y] <= 1
    {
      assert m[y] >= multiset(c.s.ready)[y] + multiset(c.s.waiting)[y] + multiset(c.s.terminated)[y];
    }
    CountsDistinct(c.s.ready);
    CountsDistinct(c.s.waiting);
    CountsDistinct(c.s.terminated);
    forall x
      ensures x in c.s.waiting ==>
        x !in c.s.ready && x !in c.s.terminated && x !in Pending(c.s.arrivals) && x !in Slot(c)
      ensures x in c.s.ready ==> x !in c.s.terminated && x !in Pending(c.s.arrivals) && x !in Slot(c)
      ensures x in c.s.terminated ==> x !in Pending(c.s.arrivals) && x !in Slot(c)
      ensures x in Pending(c.s.arrivals) ==> x !in Slot(c)
    {
      assert x in c.s.ready <==> x in multiset(c.s.ready);
      assert x in c.s.waiting <==> x in multiset(c.s.waiting);
      assert x in c.s.terminated <==> x in multiset(c.s.terminated);
      assert m[x] == multiset(c.s.ready)[x] + multiset(c.s.waiting)[x] + multiset(c.s.terminated)[x]
        + Pending(c.s.arrivals)[x] + Slot(c)[x];
    }
  }

  /** A process on both the ready and the waiting queue breaks the
      partition. */
  lemma DoubleBooked(c: Cpu, x: ProcId)
    requires ValidCpu(c) && x in c.s.ready && x in c.s.waiting
    ensures !Partitioned(c)
  {
    assert x in multiset(c.s.ready) && x in multiset(c.s.waiting);
    assert Members(c)[x] >= 2;
  }

  /** A RUNNING current process is in none of the queues. */
  lemma CurrentApart(c: Cpu)
    requires Partitioned(c) && c.cur.Some? && c.s.procs[c.cur.value].state == Running
    ensures c.cur.value !in c.s.ready && c.cur.value !in c.s.waiting && c.cur.value !in c.s.terminated
    ensures c.cur.value !in Pending(c.s.arrivals)
  {
    Apart(c);
    assert c.cur.value in Slot(c);
  }

  // ---------------------------------------------------------------------
  // The primitive moves

  /** Same queues, same current process, same states, the same processes
      still to arrive. */
  predicate SameShape(c: Cpu, d: Cpu)
    requires ValidCpu(c)
  {
    && d.cur == c.cur && |d.s.procs| == |c.s.procs|
    && d.s.ready == c.s.ready && d.s.waiting == c.s.waiting
    && d.s.terminated == c.s.terminated && Pending(d.s.arrivals) == Pending(c.s.arrivals)
    && forall k :: 0 <= k < |c.s.procs| ==> d.s.procs[k].state == c.s.procs[k].state
  }

  /** Granting a resource, freeing one, moving an instruction pointer or
      logging does not move any process. */
  lemma ShapeKeepsPartition(c: Cpu, d: Cpu)
    requires Partitioned(c) && ValidCpu(d) && SameShape(c, d)
    ensures Partitioned(d) && Members(d) == Members(c)
  {
    assert Slot(d) == Slot(c);
  }

  /** A wake-up scan, whatever test it makes, moves processes from the
      waiting queue to the ready queue as READY and nothing else; the
      current process, which is not waiting, is not touched. */
  lemma WakeUpKeepsPartition(c: Cpu, pred: Pcb -> bool)
    requires Partitioned(c) && (c.cur.Some? ==> c.cur.value !in c.s.waiting)
    ensures var d := Cpu(MoveMatching(c.s, c.s.waiting, [], pred), c.cur);
      && Partitioned(d) && Members(d) == Members(c)
      && (c.cur.Some? ==> d.s.procs[c.cur.value] == c.s.procs[c.cur.value])
  {
    var s := c.s;
    var r := MoveMatching(s, s.waiting, [], pred);
    var m := Matching(s.procs, s.waiting, pred);
    WaitingDistinct(c);
    WakeUpShape(s, pred, r, m);
    WakeUpSplit(s, pred, r.waiting, m);
    SetReadyEffect(s.procs, m);
    FilterKeepsPartition(c, Cpu(r, c.cur), m);
  }

  lemma WaitingDistinct(c: Cpu)
    requires Partitioned(c)
    ensures Distinct(c.s.waiting)
  {
    Apart(c);
  }

  /** A wake-up scan over a waiting queue without repetitions, as facts
      about its result `r`: `m` is what it readies. */
  lemma WakeUpShape(s: Sys, pred: Pcb -> bool, r: Sys, m: Queue)
    requires ValidIds(s) && Distinct(s.waiting)
    requires r == MoveMatching(s, s.waiting, [], pred) && m == Matching(s.procs, s.waiting, pred)
    ensures r.terminated == s.terminated && r.arrivals == s.arrivals
    ensures |r.procs| == |s.procs| && r.ready == s.ready + m
    ensures multiset(r.ready) + multiset(r.waiting) == multiset(s.ready) + multiset(s.waiting)
    ensures r.waiting == NotMatching(s.procs, s.waiting, pred)
    ensures r.procs == SetReady(s.procs, m)
  {
    WaitingWalk(s, pred);
    MoveMatchingFrame(s, s.waiting, [], pred);
  }

  /** The readied and the still waiting processes come from the waiting
      queue and are apart. */
  lemma WakeUpSplit(s: Sys, pred: Pcb -> bool, w: Queue, m: Queue)
    requires ValidIds(s)
    requires m == Matching(s.procs, s.waiting, pred) && w == NotMatching(s.procs, s.waiting, pred)
    ensures forall x :: x in m ==> x in s.waiting
    ensures forall x :: x in w ==> x in s.waiting && x !in m
  {
    FilterMembers(s.procs, s.waiting, pred);
  }

  /** The effect of a wake-up scan that readies the waiting processes `m`,
      stated without the scan. */
  lemma FilterKeepsPartition(c: Cpu, d: Cpu, m: Queue)
    requires Partitioned(c) && ValidCpu(d) && d.cur == c.cur
    requires c.cur.Some? ==> c.cur.value !in c.s.waiting
    requires d.s.terminated == c.s.terminated && d.s.arrivals == c.s.arrivals
    requires |d.s.procs| == |c.s.procs| && d.s.ready == c.s.ready + m
    requires multiset(d.s.ready) + multiset(d.s.waiting) == multiset(c.s.ready) + multiset(c.s.waiting)
    requires forall x :: x in m ==> x in c.s.waiting
    requires forall x :: x in d.s.waiting ==> x in c.s.waiting && x !in m
    requires forall q :: 0 <= q < |c.s.procs| ==>
      d.s.procs[q] == (if q in m then c.s.procs[q].(state := Ready) else c.s.procs[q])
    ensures Partitioned(d) && Members(d) == Members(c)
    ensures c.cur.Some? ==> d.s.procs[c.cur.value] == c.s.procs[c.cur.value]
  {
    Apart(c);
    assert Slot(d) == Slot(c);
    forall x | x in d.s.ready
      ensures x < |d.s.procs| && Queued(d.s.procs[x].state)
    {
      assert x in c.s.ready || x in m;
    }
  }

  /** A poll that hands out a process moves it from the arrivals to the
      ready tail as READY; the current process is not it. */
  lemma ArrivalKeepsPartition(c: Cpu)
    requires Partitioned(c)
    ensures var d := Cpu(CheckForNewArrivals(c.s).0, c.cur);
      && Partitioned(d) && Members(d) == Members(c)
      && (c.cur.Some? ==> d.s.procs[c.cur.value] == c.s.procs[c.cur.value])
  {
    var s := c.s;
    var (r, arrived) := CheckForNewArrivals(s);
    var d := Cpu(r, c.cur);
    if s.arrivals != [] {
      assert Pending(s.arrivals) ==
        (if s.arrivals[0].Some? then multiset{s.arrivals[0].value} else multiset{}) + Pending(s.arrivals[1..]);
    }
    if arrived {
      ArrivalMoves(c);
    } else {
      assert SameShape(c, d);
      ShapeKeepsPartition(c, d);
    }
  }

  /** The poll that hands out `x`: counted among the arrivals before and in
      the ready queue after. */
  lemma ArrivalMoves(c: Cpu)
    requires Partitioned(c) && c.s.arrivals != [] && c.s.arrivals[0].Some?
    requires Pending(c.s.arrivals) == multiset{c.s.arrivals[0].value} + Pending(c.s.arrivals[1..])
    ensures var d := Cpu(CheckForNewArrivals(c.s).0, c.cur);
      && Partitioned(d) && Members(d) == Members(c)
      && (c.cur.Some? ==> d.s.procs[c.cur.value] == c.s.procs[c.cur.value])
  {
    var x := c.s.arrivals[0].value;
    var d := Cpu(CheckForNewArrivals(c.s).0, c.cur);
    ArrivalApart(c, x);
    ArrivalMembers(c, d, x);
    ArrivalStates(c, d, x);
  }

  /** The process handed out is in no queue and not current. */
  lemma ArrivalApart(c: Cpu, x: ProcId)
    requires Partitioned(c) && x in Pending(c.s.arrivals)
    ensures x !in c.s.ready && x !in c.s.waiting && x !in c.s.terminated
    ensures c.cur.Some? ==> c.cur.value != x
  {
    Apart(c);
    if c.cur.Some? && c.s.procs[c.cur.value].state != Waiting {
      assert c.cur.value in Slot(c);
    }
  }

  lemma ArrivalMembers(c: Cpu, d: Cpu, x: ProcId)
    requires ValidCpu(c) && ValidCpu(d) && d.cur == c.cur && x < |c.s.procs|
    requires c.cur.Some? ==> c.cur.value != x
    requires Pending(c.s.arrivals) == multiset{x} + Pending(d.s.arrivals)
    requires d.s.ready == c.s.ready + [x]
    requires d.s.procs == c.s.procs[x := c.s.procs[x].(state := Ready)]
    requires d.s.waiting == c.s.waiting && d.s.terminated == c.s.terminated
    ensures Members(d) == Members(c)
  {
    assert Slot(d) == Slot(c);
    assert multiset(d.s.ready) == multiset(c.s.ready) + multiset{x};
  }

  lemma ArrivalStates(c: Cpu, d: Cpu, x: ProcId)
    requires ValidCpu(c) && StatesAgree(c) && ValidCpu(d) && d.cur == c.cur && x < |c.s.procs|
    requires x !in c.s.waiting && x !in c.s.terminated
    requires c.cur.Some? ==> c.cur.value != x
    requires d.s.ready == c.s.ready + [x]
    requires d.s.procs == c.s.procs[x := c.s.procs[x].(state := Ready)]
    requires d.s.waiting == c.s.waiting && d.s.terminated == c.s.terminated
    ensures StatesAgree(d)
  {
    forall y | y in d.s.ready
      ensures y < |d.s.procs| && Queued(d.s.procs[y].state)
    {
      assert y in c.s.ready || y == x;
    }
  }

  /** A RUNNING current process that has run out of instructions leaves the
      current slot for the terminated queue. */
  lemma TerminateKeepsPartition(c: Cpu)
    requires Partitioned(c) && c.cur.Some? && c.s.procs[c.cur.value].state == Running
    ensures var d := Cpu(MoveProcToTq(c.s, c.cur.value), None);
      RunningCur(d) && Members(d) == Members(c)
  {
    var p := c.cur.value;
    CurrentApart(c);
    var s := c.s;
    var d := Cpu(MoveProcToTq(s, p), None);
    assert d.s.procs == s.procs[p := s.procs[p].(state := Terminated)];
    assert multiset(d.s.terminated) == multiset(s.terminated) + multiset{p};
    assert Slot(c) == multiset{p} && Slot(d) == multiset{};
    forall y
      ensures Members(d)[y] == Members(c)[y]
    {
    }
    assert Members(d) == Members(c);
    assert d.s.terminated == s.terminated + [p];
    forall x | x in d.s.terminated
      ensures x < |d.s.procs| && d.s.procs[x].state == Terminated
    {
      assert x in s.terminated || x == p;
    }
  }

  /** A switch to the ready process `h`: a RUNNING current process, if
      any, goes back to the ready tail and `h` takes the slot. */
  lemma SwitchKeepsPartition(c: Cpu, h: ProcId)
    requires RunningCur(c) && h in c.s.ready
    ensures RunningCur(SwitchTo(c, h))
    ensures Members(SwitchTo(c, h)) == Members(c)
  {
    var d := SwitchTo(c, h);
    SwitchKeepsMembers(c, h, d);
    SwitchKeepsStates(c, h, d);
  }

  lemma SwitchKeepsMembers(c: Cpu, h: ProcId, d: Cpu)
    requires RunningCur(c) && h in c.s.ready && d == SwitchTo(c, h)
    ensures Members(d) == Members(c)
  {
    ReadyNotCurrent(c, h);
    SwitchFrame(c, h);
    if c.cur.Some? {
      SwitchAwaySlot(c, h, d);
    } else {
      SwitchFreshSlot(c, h, d);
    }
    SumSwap(multiset(c.s.ready), Slot(c), multiset(d.s.ready), Slot(d),
      multiset(c.s.waiting), multiset(c.s.terminated), Pending(c.s.arrivals));
  }

  /** A ready process is not the RUNNING current one. */
  lemma ReadyNotCurrent(c: Cpu, h: ProcId)
    requires RunningCur(c) && h in c.s.ready
    ensures h < |c.s.procs| && (c.cur.Some? ==> c.cur.value != h && c.s.procs[c.cur.value].state == Running)
  {
    assert Queued(c.s.procs[h].state);
  }

  /** A switch away from `q` trades `h` in the ready queue for `q`. */
  lemma SwitchAwaySlot(c: Cpu, h: ProcId, d: Cpu)
    requires ValidCpu(c) && h < |c.s.procs| && h in c.s.ready
    requires c.cur.Some? && c.cur.value != h && c.s.procs[c.cur.value].state == Running
    requires d == SwitchTo(c, h)
    ensures multiset(c.s.ready) + Slot(c) == multiset(d.s.ready) + Slot(d)
  {
    SwitchAwayProcs(c, h, d);
    SwitchAwayQueues(c, h, d);
    TradeSlot(c, d, h, c.cur.value);
  }

  /** `q` leaves the slot for the ready tail and `h` leaves the ready queue
      for the slot: the two multisets together are unchanged. */
  lemma TradeSlot(c: Cpu, d: Cpu, h: ProcId, q: ProcId)
    requires ValidCpu(c) && ValidCpu(d) && h in c.s.ready
    requires c.cur == Some(q) && c.s.procs[q].state == Running
    requires d.cur == Some(h) && d.s.procs[h].state == Running
    requires d.s.ready == Remove(c.s.ready, h) + [q]
    ensures multiset(c.s.ready) + Slot(c) == multiset(d.s.ready) + Slot(d)
  {
    RemoveCount(c.s.ready, h);
    assert Slot(c) == multiset{q} && Slot(d) == multiset{h};
  }

  /** A switch with nothing current moves `h` from the ready queue to the
      current slot. */
  lemma SwitchFreshSlot(c: Cpu, h: ProcId, d: Cpu)
    requires ValidCpu(c) && h < |c.s.procs| && h in c.s.ready && c.cur.None?
    requires d == SwitchTo(c, h)
    ensures multiset(c.s.ready) + Slot(c) == multiset(d.s.ready) + Slot(d)
  {
    SwitchFresh(c, h, d);
    RemoveCount(c.s.ready, h);
    assert Slot(c) == multiset{} && Slot(d) == multiset{h};
  }

  lemma SwitchKeepsStates(c: Cpu, h: ProcId, d: Cpu)
    requires RunningCur(c) && h in c.s.ready && d == SwitchTo(c, h)
    ensures StatesAgree(d) && d.s.procs[h].state == Running
  {
    Apart(c);
    if c.cur.Some? {
      CurrentApart(c);
    }
    SwitchToEffect(c, h);
    RemoveDistinct(c.s.ready, h);
    SwitchFrame(c, h);
    SwitchStates(c, h, d);
  }

  /** Only `h` and the process switched away from change. */
  lemma SwitchFrame(c: Cpu, h: ProcId)
    requires ValidCpu(c) && h < |c.s.procs|
    ensures SwitchTo(c, h).s.waiting == c.s.waiting && SwitchTo(c, h).s.terminated == c.s.terminated
    ensures SwitchTo(c, h).s.arrivals == c.s.arrivals
    ensures forall k :: 0 <= k < |c.s.procs| && k != h && (c.cur.Some? ==> k != c.cur.value) ==>
      SwitchTo(c, h).s.procs[k] == c.s.procs[k]
  {
  }

  lemma SumSwap(a: multiset<ProcId>, b: multiset<ProcId>, a': multiset<ProcId>, b': multiset<ProcId>,
                w: multiset<ProcId>, t: multiset<ProcId>, p: multiset<ProcId>)
    requires a + b == a' + b'
    ensures a + w + t + p + b == a' + w + t + p + b'
  {
    forall y
      ensures (a + w + t + p + b)[y] == (a' + w + t + p + b')[y]
    {
      assert (a + b)[y] == (a' + b')[y];
    }
  }

  lemma SwitchStates(c: Cpu, h: ProcId, d: Cpu)
    requires ValidCpu(c) && StatesAgree(c) && ValidCpu(d) && h in c.s.ready && h !in Remove(c.s.ready, h)
    requires d.cur == Some(h) && |d.s.procs| == |c.s.procs|
    requires forall x :: x in c.s.waiting ==> x !in c.s.ready
    requires forall x :: x in c.s.terminated ==> x !in c.s.ready
    requires c.cur.Some? ==>
      c.cur.value !in c.s.ready && c.cur.value !in c.s.waiting && c.cur.value !in c.s.terminated
    requires d.s.waiting == c.s.waiting && d.s.terminated == c.s.terminated
    requires d.s.procs[h].state == Running
    requires c.cur.None? ==> d.s.ready == Remove(c.s.ready, h)
    requires c.cur.Some? ==> d.s.ready == Remove(c.s.ready, h) + [c.cur.value]
                             && d.s.procs[c.cur.value].state == Ready
    requires forall k :: 0 <= k < |c.s.procs| && k != h && (c.cur.Some? ==> k != c.cur.value) ==>
      d.s.procs[k] == c.s.procs[k]
    ensures StatesAgree(d)
  {
    var rest := Remove(c.s.ready, h);
    forall x | x in rest
      ensures x in c.s.ready && x != h
    {
      RemoveIn(c.s.ready, h, x);
    }
    SwitchReadyStates(c, h, d, rest);
  }

  /** The ready part of SwitchStates: `rest` is the ready queue with `h`
      unlinked. */
  lemma SwitchReadyStates(c: Cpu, h: ProcId, d: Cpu, rest: Queue)
    requires ValidCpu(c) && ValidCpu(d) && |d.s.procs| == |c.s.procs|
    requires forall x :: x in c.s.ready ==> x < |c.s.procs| && Queued(c.s.procs[x].state)
    requires forall x :: x in rest ==> x in c.s.ready && x != h
    requires c.cur.None? ==> d.s.ready == rest
    requires c.cur.Some? ==> d.s.ready == rest + [c.cur.value]
                             && d.s.procs[c.cur.value].state == Ready
                             && c.cur.value !in c.s.ready
    requires forall k :: 0 <= k < |c.s.procs| && k != h && (c.cur.Some? ==> k != c.cur.value) ==>
      d.s.procs[k] == c.s.procs[k]
    ensures forall x :: x in d.s.ready ==> x < |d.s.procs| && Queued(d.s.procs[x].state)
  {
    forall x | x in d.s.ready
      ensures x < |d.s.procs| && Queued(d.s.procs[x].state)
    {
      if x in rest {
        assert x in c.s.ready && x != h;
      }
    }
  }

  // ---------------------------------------------------------------------
  // Instructions

  /** A release by the RUNNING current process frees the resource and
      wakes the processes waiting for it; nobody is lost or doubled. */
  lemma ReleaseKeepsPartition(c: Cpu, n: string)
    requires Partitioned(c) && c.cur.Some? && c.s.procs[c.cur.value].state == Running
    ensures var d := Cpu(ReleaseResource(c.s, c.cur.value, n), c.cur);
      && Partitioned(d) && Members(d) == Members(c)
      && d.s.procs[c.cur.value].state == Running
  {
    var p := c.cur.value;
    CurrentApart(c);
    if n in c.s.procs[p].held {
      var s1 := Unhold(c.s, p, n);
      var c1 := Cpu(s1, c.cur);
      assert SameShape(c, c1);
      ShapeKeepsPartition(c, c1);
      WakeUpKeepsPartition(c1, pcb => IsWaitingForResource(pcb, n));
      assert ReleaseResource(c.s, p, n) == MoveWaitingPcbsToRq(s1, n);
    } else {
      var d := Cpu(ReleaseResource(c.s, p, n), c.cur);
      assert SameShape(c, d);
      ShapeKeepsPartition(c, d);
    }
  }

  /** An instruction of the RUNNING current process that does not block it
      moves no process except through the wake-ups, and leaves it RUNNING. */
  lemma ExecuteKeepsPartition(c: Cpu)
    requires Partitioned(c) && c.cur.Some? && c.s.procs[c.cur.value].state == Running
    requires !Blocks(c.s, c.cur.value)
    ensures var d := Cpu(ExecuteInstr(c.s, c.cur.value), c.cur);
      && Partitioned(d) && Members(d) == Members(c)
      && d.s.procs[c.cur.value].state == Running
  {
    var p := c.cur.value;
    match NextInstr(c.s.procs[p])
    case None =>
    case Some(i) =>
      match i
      case Req(n) =>
        var d := Cpu(RequestResource(c.s, p, n), c.cur);
        assert SameShape(c, d);
        ShapeKeepsPartition(c, d);
      case Rel(n) =>
        var s1 := ReleaseResource(c.s, p, n);
        ReleaseKeepsPartition(c, n);
        var c1 := Cpu(s1, c.cur);
        CurrentApart(c1);
        var l := s1.ledger;
        WakeUpKeepsPartition(c1, pcb => CanResume(pcb, l));
      case Send(_, _) =>
      case Recv(_, _) =>
  }

  /** The instruction and the arrival poll that follows it, for a RUNNING
      current process that does not block. */
  lemma ExecutePollKeepsPartition(c: Cpu, d: Cpu)
    requires Partitioned(c) && c.cur.Some? && c.s.procs[c.cur.value].state == Running
    requires !Blocks(c.s, c.cur.value)
    requires d == Cpu(CheckForNewArrivals(ExecuteInstr(c.s, c.cur.value)).0, c.cur)
    ensures Partitioned(d)
    ensures Members(d) == Members(c)
    ensures d.s.procs[c.cur.value].state == Running
  {
    ExecuteKeepsPartition(c);
    ArrivalKeepsPartition(Cpu(ExecuteInstr(c.s, c.cur.value), c.cur));
  }

  /** Moving the RUNNING current process on to its next instruction. */
  lemma AdvanceKeepsPartition(c: Cpu)
    requires RunningCur(c) && c.cur.Some?
    ensures var d := Cpu(Advance(c.s, c.cur.value), c.cur);
      RunningCur(d) && Members(d) == Members(c)
  {
    var d := Cpu(Advance(c.s, c.cur.value), c.cur);
    assert SameShape(c, d);
    ShapeKeepsPartition(c, d);
  }

  // ---------------------------------------------------------------------
  // First come, first served

  /** A pass of the first-come-first-served loop that does not block the
      current process keeps every process in exactly one place. */
  lemma FcfsKeepsPartition(c: Cpu)
    requires RunningCur(c) && !BlocksNow(c)
    ensures FcfsStep(c).Continue? ==> RunningCur(FcfsStep(c).next)
    ensures FcfsStep(c).Continue? ==> Members(FcfsStep(c).next) == Members(c)
  {
    match c.cur
    case None =>
      if c.s.ready != [] {
        FcfsDispatchKeepsPartition(c, c.s.ready[0]);
      }
    case Some(p) =>
      FcfsRunKeepsPartition(c, p);
  }

  /** Lines 258-265: the head of the ready queue takes the empty slot. */
  lemma FcfsDispatchKeepsPartition(c: Cpu, h: ProcId)
    requires RunningCur(c) && c.cur.None? && c.s.ready != [] && h == c.s.ready[0]
    ensures FcfsStep(c).Continue? && FcfsStep(c).next == SwitchTo(c, h)
    ensures RunningCur(SwitchTo(c, h)) && Members(SwitchTo(c, h)) == Members(c)
  {
    assert Remove(c.s.ready, h) == c.s.ready[1..];
    SwitchKeepsPartition(c, h);
  }

  /** Lines 268-285 for a current process that does not block: it
      terminates, or runs one instruction and stays current. */
  lemma FcfsRunKeepsPartition(c: Cpu, p: ProcId)
    requires RunningCur(c) && !BlocksNow(c) && c.cur == Some(p)
    ensures RunningCur(FcfsRun(c.s, p)) && Members(FcfsRun(c.s, p)) == Members(c)
  {
    var pcb := c.s.procs[p];
    if pcb.pc >= |pcb.instrs| {
      TerminateKeepsPartition(c);
    } else {
      var d := Cpu(CheckForNewArrivals(ExecuteInstr(c.s, p)).0, c.cur);
      ExecutePollKeepsPartition(c, d);
      assert FcfsRun(c.s, p) == Cpu(Advance(d.s, p), Some(p));
      AdvanceKeepsPartition(d);
    }
  }

  /** The same loop breaks the partition at the first blocking request:
      the blocked process ends up on the waiting queue twice. */
  lemma FcfsBlockBreaksPartition(c: Cpu)
    requires RunningCur(c) && BlocksNow(c)
    ensures var r := FcfsStep(c);
      && r.Continue?
      && multiset(r.next.s.waiting)[c.cur.value] == 2
      && !Partitioned(r.next)
  {
    var p := c.cur.value;
    var n := c.s.procs[p].instrs[c.s.procs[p].pc].resourceName;
    CurrentApart(c);
    if c.s.arrivals != [] {
      assert Pending(c.s.arrivals) ==
        (if c.s.arrivals[0].Some? then multiset{c.s.arrivals[0].value} else multiset{}) + Pending(c.s.arrivals[1..]);
    }
    FcfsBlockEnqueuesTwice(c, n);
    var d := FcfsStep(c).next;
    assert multiset(d.s.waiting) == multiset(c.s.waiting) + multiset{p, p};
    assert Members(d)[p] >= 2;
  }

  // ---------------------------------------------------------------------
  // Priority with preemption

  /** Picking the highest-priority ready process when nothing is current. */
  lemma SelectKeepsPartition(c: Cpu)
    requires Partitioned(c)
    ensures Partitioned(Select(c)) && Members(Select(c)) == Members(c)
  {
    if c.cur.None? {
      var h := FindHighestPriorityProc(c.s.procs, c.s.ready);
      if h.Some? {
        assert Select(c) == SwitchTo(c, h.value);
        SwitchKeepsPartition(c, h.value);
      }
    }
  }

  lemma PreemptKeepsPartition(c: Cpu)
    requires RunningCur(c)
    ensures RunningCur(Preempt(c)) && Members(Preempt(c)) == Members(c)
  {
    var h := FindHighestPriorityProc(c.s.procs, c.s.ready);
    if h.Some? && (c.cur.None? || HigherPriority(c.s.procs[h.value].priority, c.s.procs[c.cur.value].priority)) {
      SwitchKeepsPartition(c, h.value);
    }
  }

  /** Running the current process for one instruction, with the preemption
      checks, when it does not block. */
  lemma RunCurrentKeepsPartition(c: Cpu)
    requires Partitioned(c) && !BlocksNow(c)
    ensures RunningCur(RunCurrent(c)) && Members(RunCurrent(c)) == Members(c)
  {
    match c.cur
    case None =>
    case Some(p) =>
      if c.s.procs[p].state == Running {
        RunTurnKeepsPartition(c, p);
      } else {
        assert c.s.procs[p].state == Waiting;
        assert Slot(c) == multiset{};
      }
  }

  lemma RunTurnKeepsPartition(c: Cpu, p: ProcId)
    requires Partitioned(c) && !BlocksNow(c)
    requires c.cur == Some(p) && c.s.procs[p].state == Running
    ensures RunningCur(RunTurn(c.s, p)) && Members(RunTurn(c.s, p)) == Members(c)
  {
    var pcb := c.s.procs[p];
    var polled := CheckForNewArrivals(ExecuteInstr(c.s, p));
    ExecutePollKeepsPartition(c, Cpu(polled.0, c.cur));
    AfterPollKeepsPartition(Cpu(polled.0, c.cur), p, pcb.pc < |pcb.instrs|, polled.1);
  }

  /** What follows the poll in a pass of the priority loop keeps the
      partition. */
  lemma AfterPollKeepsPartition(c: Cpu, p: ProcId, hadInstr: bool, arrived: bool)
    requires Partitioned(c) && c.cur == Some(p) && c.s.procs[p].state == Running
    ensures var d := PreemptChecks(PriSettle(c.s, p, hadInstr), arrived);
      RunningCur(d) && Members(d) == Members(c)
  {
    SettleKeepsPartition(c, p, hadInstr);
    PreemptChecksKeepsPartition(PriSettle(c.s, p, hadInstr), arrived);
  }

  /** Lines 194-204 of the priority loop keep the partition. */
  lemma SettleKeepsPartition(c: Cpu, p: ProcId, hadInstr: bool)
    requires Partitioned(c) && c.cur == Some(p) && c.s.procs[p].state == Running
    ensures RunningCur(PriSettle(c.s, p, hadInstr)) && Members(PriSettle(c.s, p, hadInstr)) == Members(c)
  {
    if hadInstr {
      AdvanceKeepsPartition(c);
    } else {
      TerminateKeepsPartition(c);
    }
  }

  lemma PreemptChecksKeepsPartition(c: Cpu, arrived: bool)
    requires RunningCur(c)
    ensures RunningCur(PreemptChecks(c, arrived)) && Members(PreemptChecks(c, arrived)) == Members(c)
  {
    PreemptKeepsPartition(c);
    PreemptKeepsPartition(if arrived then Preempt(c) else c);
  }

  lemma EndChecksKeepsPartition(c: Cpu)
    requires RunningCur(c)
    ensures EndChecks(c).Continue? ==> RunningCur(EndChecks(c).next) && Members(EndChecks(c).next) == Members(c)
  {
    var polled :=
      if c.cur.None? && c.s.ready == [] && c.s.waiting == [] then CheckForNewArrivals(c.s)
      else (c.s, true);
    EndPollKeepsPartition(c, polled.0);
    DeadlockCheckKeepsPartition(Cpu(polled.0, c.cur));
  }

  lemma EndPollKeepsPartition(c: Cpu, s1: Sys)
    requires RunningCur(c)
    requires s1 == c.s || s1 == CheckForNewArrivals(c.s).0
    ensures RunningCur(Cpu(s1, c.cur)) && Members(Cpu(s1, c.cur)) == Members(c)
  {
    ArrivalKeepsPartition(c);
  }

  /** The deadlock check only logs. */
  lemma DeadlockCheckKeepsPartition(c: Cpu)
    requires RunningCur(c)
    ensures RunningCur(Cpu(CheckDeadlock(c.s).0, c.cur))
    ensures Members(Cpu(CheckDeadlock(c.s).0, c.cur)) == Members(c)
  {
    var d := Cpu(CheckDeadlock(c.s).0, c.cur);
    assert SameShape(c, d);
    ShapeKeepsPartition(c, d);
  }

  /** A pass of the priority loop in which the process it runs does not
      block keeps every process in exactly one place. */
  lemma PriorityKeepsPartition(c: Cpu)
    requires Partitioned(c) && !BlocksNow(Select(c))
    ensures var r := PriorityStep(c);
      r.Continue? ==> RunningCur(r.next) && Members(r.next) == Members(c)
  {
    if !(c.s.ready == [] && c.s.waiting == [] && c.cur.None?) {
      SelectKeepsPartition(c);
      RunCurrentKeepsPartition(Select(c));
      EndChecksKeepsPartition(RunCurrent(Select(c)));
    }
  }

  /** A blocked current process is not safe from preemption: when a ready
      process has a higher priority, the WAITING process is put on the
      ready queue while it is still on the waiting queue. */
  lemma BlockedPreemptDoubleBooks(c: Cpu)
    requires Partitioned(c) && c.cur.Some? && c.s.procs[c.cur.value].state == Waiting
    requires var h := FindHighestPriorityProc(c.s.procs, c.s.ready);
      h.Some? && HigherPriority(c.s.procs[h.value].priority, c.s.procs[c.cur.value].priority)
    ensures var d := Preempt(c);
      && c.cur.value in d.s.ready && c.cur.value in d.s.waiting
      && !Partitioned(d)
  {
    var p := c.cur.value;
    var h := FindHighestPriorityProc(c.s.procs, c.s.ready).value;
    WaitingCurApart(c, h);
    var d := Preempt(c);
    assert d == SwitchTo(c, h);
    SwitchToEffect(c, h);
    SwitchFrame(c, h);
    assert d.s.ready[|d.s.ready| - 1] == p;
    DoubleBooked(d, p);
  }

  /** A WAITING current process is on the waiting queue and so not on the
      ready queue. */
  lemma WaitingCurApart(c: Cpu, h: ProcId)
    requires Partitioned(c) && c.cur.Some? && c.s.procs[c.cur.value].state == Waiting
    requires h in c.s.ready
    ensures c.cur.value in c.s.waiting && c.cur.value != h
  {
    Apart(c);
  }

  /** init_queues starts the loop partitioned when the loader handed out
      each process once (the first batch on the loaded list, the rest as
      later arrivals) and the first batch is NEW or READY. */
  lemma InitPartitioned(procs: seq<Pcb>, ledger: Ledger, arrivals: seq<Option<ProcId>>, loaded: Queue)
    requires loaded != [] && InRange(loaded, |procs|)
    requires forall k :: 0 <= k < |arrivals| && arrivals[k].Some? ==> arrivals[k].value < |procs|
    requires Unique(multiset(loaded) + Pending(arrivals))
    requires forall x :: x in loaded ==> x < |procs| && Queued(procs[x].state)
    ensures RunningCur(Cpu(InitQueues(procs, ledger, arrivals, loaded), None))
  {
    var c := Cpu(InitQueues(procs, ledger, arrivals, loaded), None);
    InitMembers(c, loaded, arrivals);
    InitStatesAgree(c, procs, loaded);
  }

  lemma InitMembers(c: Cpu, loaded: Queue, arrivals: seq<Option<ProcId>>)
    requires ValidCpu(c) && c.cur.None?
    requires c.s.ready == loaded && c.s.waiting == [] && c.s.terminated == [] && c.s.arrivals == arrivals
    ensures Members(c) == multiset(loaded) + Pending(arrivals)
  {
    assert Slot(c) == multiset{};
    assert multiset(c.s.waiting) == multiset{} && multiset(c.s.terminated) == multiset{};
  }

  lemma InitStatesAgree(c: Cpu, procs: seq<Pcb>, loaded: Queue)
    requires ValidCpu(c) && c.cur.None?
    requires c.s.procs == procs && c.s.ready == loaded && c.s.waiting == [] && c.s.terminated == []
    requires forall x :: x in loaded ==> x < |procs| && Queued(procs[x].state)
    ensures StatesAgree(c)
  {
  }
}
