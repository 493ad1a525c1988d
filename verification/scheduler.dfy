/** The two scheduler loops, one iteration at a time, and the dispatch on
    the policy code. A `Cpu` is the manager's state together with the
    process the loop holds in its `current_process` variable. */
module Scheduler {
  import opened ProcStructs
  import opened Seqs
  import opened Queues
  import opened Ledger
  import opened Manager

  datatype Cpu = Cpu(s: Sys, cur: Option<ProcId>)

  /** What one iteration of a loop leads to: the next iteration, or the end
      of the loop (with the verdict of the deadlock check that ended it). */
  datatype Step = Continue(next: Cpu) | Halt(sys: Sys, deadlock: bool)

  predicate ValidCpu(c: Cpu) {
    ValidIds(c.s) && (c.cur.Some? ==> c.cur.value < |c.s.procs|)
  }

  /** schedule_t: PRIOR = 0, RR = 1, FCFS = 2. */
  datatype Policy = Prior | Rr | Fcfs

  function PolicyCode(p: Policy): (n: int)
    ensures 0 <= n < 3
    ensures PolicyOfCode(n) == Some(p)
  {
    match p
    case Prior => 0
    case Rr => 1
    case Fcfs => 2
  }

  function PolicyOfCode(n: int): (r: Option<Policy>)
    ensures r.Some? <==> 0 <= n < 3
  {
    if n == 0 then Some(Prior)
    else if n == 1 then Some(Rr)
    else if n == 2 then Some(Fcfs)
    else None
  }

  /** remove_proc_from_readyq: unlinks the first occurrence of the process
      from the ready queue; NULL, an empty queue or a process that is not
      there leave the queue as it is. */
  function RemoveProcFromReadyq(s: Sys, p: Option<ProcId>): (r: Sys)
    requires ValidIds(s)
    ensures ValidIds(r) && r == s.(ready := r.ready)
    ensures p.None? ==> r == s
    ensures p.Some? ==> r.ready == Remove(s.ready, p.value)
  {
    if p.None? || s.ready == [] then s
    else
      RemoveKeepsRange(s.ready, p.value, |s.procs|);
      s.(ready := Remove(s.ready, p.value))
  }

  lemma RemoveKeepsRange(q: Queue, x: ProcId, n: nat)
    requires InRange(q, n)
    ensures InRange(Remove(q, x), n)
  {
    var r := Remove<ProcId>(q, x);
    forall k | 0 <= k < |r|
      ensures r[k] < n
    {
      RemoveIn<ProcId>(q, x, r[k]);
    }
  }

  /** Removing a process from a ready queue that lists every process once
      leaves it out and keeps the others in order. */
  lemma RemoveFromReadyDistinct(s: Sys, p: ProcId)
    requires ValidIds(s) && Distinct(s.ready)
    ensures var r := RemoveProcFromReadyq(s, Some(p));
      && p !in r.ready && Distinct(r.ready)
      && (forall x :: x in r.ready <==> x in s.ready && x != p)
  {
    RemoveDistinct(s.ready, p);
    var r := RemoveProcFromReadyq(s, Some(p));
    forall x
      ensures x in r.ready <==> x in s.ready && x != p
    {
      assert x in r.ready <==> x in multiset(r.ready);
      assert x in s.ready <==> x in multiset(s.ready);
    }
  }

  /** The loops advance `next_instruction` by one. */
  function Advance(s: Sys, p: ProcId): (r: Sys)
    requires ValidIds(s) && p < |s.procs|
    ensures ValidIds(r) && |r.procs| == |s.procs|
    ensures r.procs[p].pc == s.procs[p].pc + 1
  {
    s.(procs := s.procs[p := s.procs[p].(pc := s.procs[p].pc + 1)])
  }

  // ---------------------------------------------------------------------
  // First come, first served

  /** One pass of schedule_fcfs: with no current process the head of the
      ready queue is dequeued and set RUNNING (or the loop ends when the
      queue is empty); otherwise the current process runs one instruction,
      the arrivals are polled, and a process left WAITING is put on the
      waiting queue once more and given up; a process without instructions
      is terminated unless it is WAITING. */
  function FcfsStep(c: Cpu): (r: Step)
    requires ValidCpu(c)
    ensures r.Continue? ==> ValidCpu(r.next) && |r.next.s.procs| == |c.s.procs|
  {
    match c.cur
    case None => FcfsDispatch(c.s)
    case Some(p) => Continue(FcfsRun(c.s, p))
  }

  /** Lines 258-265: the head of the ready queue becomes current and
      RUNNING; an empty ready queue ends the loop. */
  function FcfsDispatch(s: Sys): (r: Step)
    requires ValidIds(s)
    ensures r.Continue? ==> ValidCpu(r.next) && |r.next.s.procs| == |s.procs|
  {
    var (h, rest) := Dequeue(s.ready);
    if h.None? then Halt(s, false)
    else Continue(Cpu(SetState(s.(ready := rest), h.value, Running), h))
  }

  /** Lines 268-285: the current process `p` runs its next instruction, or
      is terminated (unless WAITING) when it has none left. */
  function FcfsRun(s: Sys, p: ProcId): (r: Cpu)
    requires ValidIds(s) && p < |s.procs|
    ensures ValidCpu(r) && |r.s.procs| == |s.procs|
  {
    var pcb := s.procs[p];
    if pcb.pc >= |pcb.instrs| then
      Cpu(if pcb.state != Waiting then MoveProcToTq(s, p) else s, None)
    else
      FcfsSettle(CheckForNewArrivals(ExecuteInstr(s, p)).0, p, pcb.instrs[pcb.pc].resourceName)
  }

  /** Lines 273-279, after the instruction and the poll: a WAITING process
      is put on the waiting queue (again) under the name of the resource it
      asked for and given up; any other moves on to its next instruction. */
  function FcfsSettle(s: Sys, p: ProcId, n: string): (r: Cpu)
    requires ValidIds(s) && p < |s.procs|
    ensures ValidCpu(r) && |r.s.procs| == |s.procs|
  {
    if s.procs[p].state == Waiting then Cpu(MoveProcToWq(s, p, n), None)
    else Cpu(Advance(s, p), Some(p))
  }

  // ---------------------------------------------------------------------
  // Priority with preemption

  /** Lines 179-185: with no current process, the first ready process of
      highest priority is taken off the ready queue and set RUNNING. */
  function Select(c: Cpu): (r: Cpu)
    requires ValidCpu(c)
    ensures ValidCpu(r) && |r.s.procs| == |c.s.procs|
  {
    if c.cur.Some? then c
    else
      var h := FindHighestPriorityProc(c.s.procs, c.s.ready);
      if h.None? then c
      else Cpu(SetState(RemoveProcFromReadyq(c.s, h), h.value, Running), h)
  }

  /** The preemption check (lines 207-218 and again 221-232): when a ready
      process has a strictly higher priority than the current one (or there
      is no current one), the current process goes back to the ready tail
      as READY and the chosen one leaves the ready queue as RUNNING. The
      current process is preempted whatever its state. */
  function Preempt(c: Cpu): (r: Cpu)
    requires ValidCpu(c)
    ensures ValidCpu(r) && |r.s.procs| == |c.s.procs|
  {
    var h := FindHighestPriorityProc(c.s.procs, c.s.ready);
    if h.Some? && (c.cur.None? || HigherPriority(c.s.procs[h.value].priority, c.s.procs[c.cur.value].priority)) then
      SwitchTo(c, h.value)
    else c
  }

  /** The switch itself: the current process, if any, is moved to the ready
      queue, then `h` is unlinked from it and runs. */
  function SwitchTo(c: Cpu, h: ProcId): (r: Cpu)
    requires ValidCpu(c) && h < |c.s.procs|
    ensures ValidCpu(r) && |r.s.procs| == |c.s.procs| && r.cur == Some(h)
  {
    var s1 := if c.cur.Some? then MoveProcToRq(c.s, c.cur.value) else c.s;
    Cpu(SetState(RemoveProcFromReadyq(s1, Some(h)), h, Running), Some(h))
  }

  /** What a switch away from a current process does to the queues, the
      states and the log. */
  lemma SwitchToEffect(c: Cpu, h: ProcId)
    requires ValidCpu(c) && h < |c.s.procs| && h in c.s.ready
    requires c.cur.Some? ==> c.cur.value != h
    ensures SwitchTo(c, h).s.procs[h].state == Running
    ensures forall k :: 0 <= k < |c.s.procs| ==> SwitchTo(c, h).s.procs[k].priority == c.s.procs[k].priority
    ensures c.cur.None? ==> SwitchTo(c, h).s.ready == Remove(c.s.ready, h) && SwitchTo(c, h).s.trace == c.s.trace
    ensures c.cur.Some? ==>
      && SwitchTo(c, h).s.procs[c.cur.value].state == Ready
      && SwitchTo(c, h).s.ready == Remove(c.s.ready, h) + [c.cur.value]
      && SwitchTo(c, h).s.trace == c.s.trace + [LogReady(c.s.procs[c.cur.value].name)]
  {
    var r := SwitchTo(c, h);
    if c.cur.Some? {
      SwitchAwayProcs(c, h, r);
      SwitchAwayQueues(c, h, r);
    } else {
      SwitchFresh(c, h, r);
    }
  }

  /** A switch with no current process: only `h` changes, to RUNNING, and
      leaves the ready queue. */
  lemma SwitchFresh(c: Cpu, h: ProcId, r: Cpu)
    requires ValidCpu(c) && h < |c.s.procs| && c.cur.None?
    requires r == SwitchTo(c, h)
    ensures r.s.procs[h].state == Running
    ensures forall k :: 0 <= k < |c.s.procs| ==> r.s.procs[k].priority == c.s.procs[k].priority
    ensures r.s.ready == Remove(c.s.ready, h) && r.s.trace == c.s.trace
  {
    var s2 := RemoveProcFromReadyq(c.s, Some(h));
    assert r.s == SetState(s2, h, Running);
  }

  /** The table after a switch away from a current process `q`: `q` is
      READY, `h` is RUNNING, nothing else changes. */
  lemma SwitchAwayProcs(c: Cpu, h: ProcId, r: Cpu)
    requires ValidCpu(c) && h < |c.s.procs|
    requires c.cur.Some? && c.cur.value != h
    requires r == SwitchTo(c, h)
    ensures r.s.procs[h].state == Running && r.s.procs[c.cur.value].state == Ready
    ensures forall k :: 0 <= k < |c.s.procs| ==> r.s.procs[k].priority == c.s.procs[k].priority
  {
    var q := c.cur.value;
    var s2 := RemoveProcFromReadyq(MoveProcToRq(c.s, q), Some(h));
    assert r.s == SetState(s2, h, Running);
    TwoStates(c.s.procs, q, Ready, h, Running, r.s.procs);
  }

  /** Two state updates at distinct slots keep every priority and leave
      each slot in the state written to it. */
  lemma TwoStates(ps: seq<Pcb>, q: ProcId, a: State, h: ProcId, b: State, rs: seq<Pcb>)
    requires q < |ps| && h < |ps| && q != h
    requires rs == ps[q := ps[q].(state := a)][h := ps[h].(state := b)]
    ensures rs[h].state == b && rs[q].state == a
    ensures forall k :: 0 <= k < |ps| ==> rs[k].priority == ps[k].priority
  {
  }

  /** The queues and the log after a switch away from a current process
      `q`: `h` leaves the ready queue, `q` joins its tail and is logged. */
  lemma SwitchAwayQueues(c: Cpu, h: ProcId, r: Cpu)
    requires ValidCpu(c) && h < |c.s.procs| && h in c.s.ready
    requires c.cur.Some? && c.cur.value != h
    requires r == SwitchTo(c, h)
    ensures r.s.ready == Remove(c.s.ready, h) + [c.cur.value]
    ensures r.s.trace == c.s.trace + [LogReady(c.s.procs[c.cur.value].name)]
  {
    var q := c.cur.value;
    var s1 := MoveProcToRq(c.s, q);
    assert s1.ready == c.s.ready + [q];
    var s2 := RemoveProcFromReadyq(s1, Some(h));
    assert s2.trace == s1.trace;
    assert s2.ready == Remove(c.s.ready + [q], h);
    RemoveBeforeTail(c.s.ready, h, q);
    assert r.s.ready == s2.ready && r.s.trace == s2.trace;
  }

  /** Lines 188-236: a RUNNING current process executes one instruction,
      the arrivals are polled, the instruction pointer moves on only if the
      process is still RUNNING, a process without instructions terminates,
      and the preemption check follows (twice when a process arrived). A
      WAITING current process is given up. */
  function RunCurrent(c: Cpu): (r: Cpu)
    requires ValidCpu(c)
    ensures ValidCpu(r) && |r.s.procs| == |c.s.procs|
  {
    match c.cur
    case None => c
    case Some(p) =>
      if c.s.procs[p].state == Running then RunTurn(c.s, p)
      else if c.s.procs[p].state == Waiting then Cpu(c.s, None)
      else c
  }

  /** Lines 188-236 for a RUNNING current process `p`. */
  function RunTurn(s: Sys, p: ProcId): (r: Cpu)
    requires ValidIds(s) && p < |s.procs|
    ensures ValidCpu(r) && |r.s.procs| == |s.procs|
  {
    var pcb := s.procs[p];
    var polled := CheckForNewArrivals(ExecuteInstr(s, p));
    PreemptChecks(PriSettle(polled.0, p, pcb.pc < |pcb.instrs|), polled.1)
  }

  /** Lines 206-235: the preemption check, made twice when a process
      arrived during the poll and once otherwise. */
  function PreemptChecks(c: Cpu, arrived: bool): (r: Cpu)
    requires ValidCpu(c)
    ensures ValidCpu(r) && |r.s.procs| == |c.s.procs|
  {
    Preempt(if arrived then Preempt(c) else c)
  }

  /** Lines 194-204, after the instruction and the poll: a process that
      had an instruction moves on only if it is still RUNNING; one that had
      none is terminated and given up. */
  function PriSettle(s: Sys, p: ProcId, hadInstr: bool): (r: Cpu)
    requires ValidIds(s) && p < |s.procs|
    ensures ValidCpu(r) && |r.s.procs| == |s.procs|
  {
    if hadInstr then Cpu(if s.procs[p].state == Running then Advance(s, p) else s, Some(p))
    else Cpu(MoveProcToTq(s, p), None)
  }

  /** Lines 239-248: with nothing current, ready or waiting, the arrivals
      are polled once more and the loop ends if none came; then the
      deadlock check may end it. */
  function EndChecks(c: Cpu): (r: Step)
    requires ValidCpu(c)
    ensures r.Continue? ==> ValidCpu(r.next) && |r.next.s.procs| == |c.s.procs|
  {
    var (s1, more) :=
      if c.cur.None? && c.s.ready == [] && c.s.waiting == [] then CheckForNewArrivals(c.s)
      else (c.s, true);
    if !more then Halt(s1, false)
    else
      var (s2, deadlock) := CheckDeadlock(s1);
      if deadlock then Halt(s2, true) else Continue(Cpu(s2, c.cur))
  }

  /** One pass of schedule_pri_w_pre; the loop runs while something is
      ready, waiting or current. */
  function PriorityStep(c: Cpu): (r: Step)
    requires ValidCpu(c)
    ensures r.Continue? ==> ValidCpu(r.next) && |r.next.s.procs| == |c.s.procs|
  {
    if c.s.ready == [] && c.s.waiting == [] && c.cur.None? then Halt(c.s, false)
    else EndChecks(RunCurrent(Select(c)))
  }

  // ---------------------------------------------------------------------
  // The loops and the dispatch

  /** Where a run of a loop ends: the loop exited, or the fuel ran out
      first. */
  datatype Outcome = Done(sys: Sys, deadlock: bool) | OutOfFuel(cpu: Cpu)

  /** Runs the first-come-first-served loop from `c` for at most `fuel`
      passes. */
  function RunFcfs(c: Cpu, fuel: nat): (r: Outcome)
    requires ValidCpu(c)
    ensures r.Done? ==> !r.deadlock
    decreases fuel, 0
  {
    if fuel == 0 then OutOfFuel(c)
    else FcfsHaltsCleanly(c); FcfsFrom(FcfsStep(c), fuel - 1)
  }

  /** Carries a first-come-first-served run on after the pass that gave `r`. */
  function FcfsFrom(r: Step, fuel: nat): (o: Outcome)
    requires r.Continue? ==> ValidCpu(r.next)
    requires r.Halt? ==> !r.deadlock
    ensures o.Done? ==> !o.deadlock
    decreases fuel, 1
  {
    match r
    case Halt(s, d) => Done(s, d)
    case Continue(c) => RunFcfs(c, fuel)
  }

  /** Runs the priority loop from `c` for at most `fuel` passes. */
  function RunPriority(c: Cpu, fuel: nat): (r: Outcome)
    requires ValidCpu(c)
    ensures r.Done? && r.deadlock ==> DeadlockEnd(r.sys)
    decreases fuel, 0
  {
    if fuel == 0 then OutOfFuel(c)
    else PriorityDeadlockVerdict(c); PriorityFrom(PriorityStep(c), fuel - 1)
  }

  /** Carries a priority run on after the pass that gave `r`. */
  function PriorityFrom(r: Step, fuel: nat): (o: Outcome)
    requires r.Continue? ==> ValidCpu(r.next)
    requires r.Halt? && r.deadlock ==> DeadlockEnd(r.sys)
    ensures o.Done? && o.deadlock ==> DeadlockEnd(o.sys)
    decreases fuel, 1
  {
    match r
    case Halt(s, d) => Done(s, d)
    case Continue(c) => RunPriority(c, fuel)
  }

  /** How a deadlock verdict leaves the manager: nothing ready, something
      waiting, and the deadlock line last in the log. */
  predicate DeadlockEnd(s: Sys) {
    s.ready == [] && s.waiting != [] && |s.trace| > 0 && s.trace[|s.trace| - 1] == LogDeadlock
  }

  /** schedule_processes: PRIOR runs the priority loop, RR and FCFS both run
      the first-come-first-served loop, any other code does nothing. The
      loop starts with no current process. */
  function ScheduleProcesses(code: int, s: Sys, fuel: nat): (r: Outcome)
    requires ValidIds(s)
    ensures PolicyOfCode(code).None? ==> r == Done(s, false)
    ensures PolicyOfCode(code) == Some(Prior) ==> r == RunPriority(Cpu(s, None), fuel)
    ensures PolicyOfCode(code) == Some(Rr) || PolicyOfCode(code) == Some(Fcfs) ==> r == RunFcfs(Cpu(s, None), fuel)
  {
    match PolicyOfCode(code)
    case None => Done(s, false)
    case Some(Prior) => RunPriority(Cpu(s, None), fuel)
    case Some(Rr) => RunFcfs(Cpu(s, None), fuel)
    case Some(Fcfs) => RunFcfs(Cpu(s, None), fuel)
  }

  // ---------------------------------------------------------------------
  // Properties of the loops

  /** The FCFS loop ends only when nothing is current and the ready queue is
      empty, whatever is still waiting, and it never reports a deadlock. */
  lemma FcfsHaltsCleanly(c: Cpu)
    requires ValidCpu(c)
    ensures FcfsStep(c).Halt? <==> c.cur.None? && c.s.ready == []
    ensures FcfsStep(c).Halt? ==> FcfsStep(c) == Halt(c.s, false)
  {
  }

  /** The end-of-pass checks report a deadlock only with an empty ready
      queue and a non-empty waiting queue, and log it last; they report one
      whenever the poll does not end the loop and the queues are so. */
  lemma EndChecksVerdict(c: Cpu)
    requires ValidCpu(c)
    ensures var r := EndChecks(c);
      && (r.Halt? && r.deadlock ==> DeadlockEnd(r.sys))
      && (c.s.ready == [] && c.s.waiting != [] ==> r.Halt? && r.deadlock)
  {
  }

  lemma PriorityDeadlockVerdict(c: Cpu)
    requires ValidCpu(c)
    ensures var r := PriorityStep(c);
      r.Halt? && r.deadlock ==> DeadlockEnd(r.sys)
  {
    if !(c.s.ready == [] && c.s.waiting == [] && c.cur.None?) {
      EndChecksVerdict(RunCurrent(Select(c)));
    }
  }

  /** Preemption happens only for a strictly higher priority: the current
      process is then back at the ready tail as READY with a "ready" line
      logged, and the chosen ready process runs. Without preemption nothing
      changes. */
  lemma PreemptOnlyOnHigher(c: Cpu)
    requires ValidCpu(c)
    ensures var r := Preempt(c);
      && (r.cur == c.cur ==> r == c)
      && (r.cur != c.cur ==> r.cur.Some? && r.cur.value in c.s.ready && r.s.procs[r.cur.value].state == Running)
      && (r.cur != c.cur && c.cur.Some? ==>
            var q := c.cur.value;
            && c.s.procs[r.cur.value].priority > c.s.procs[q].priority
            && r.s.procs[q].state == Ready
            && r.s.ready != [] && r.s.ready[|r.s.ready| - 1] == q
            && r.s.trace == c.s.trace + [LogReady(c.s.procs[q].name)])
  {
    var h := FindHighestPriorityProc(c.s.procs, c.s.ready);
    if h.Some? && (c.cur.None? || HigherPriority(c.s.procs[h.value].priority, c.s.procs[c.cur.value].priority)) {
      SwitchToEffect(c, h.value);
    }
  }

  /** After the preemption check no ready process has a higher priority than
      the current one. */
  lemma PreemptKeepsTop(c: Cpu)
    requires ValidCpu(c)
    ensures var r := Preempt(c);
      r.cur.Some? ==> forall x :: x in r.s.ready ==> r.s.procs[x].priority <= r.s.procs[r.cur.value].priority
  {
    var h := FindHighestPriorityProc(c.s.procs, c.s.ready);
    HighestIsFirstMax(c.s.procs, c.s.ready);
    if h.None? {
      if c.cur.Some? {
        forall x | x in c.s.ready
          ensures c.s.procs[x].priority == INT_MIN
        {
          var j :| 0 <= j < |c.s.ready| && c.s.ready[j] == x;
        }
      }
    } else if c.cur.None? || HigherPriority(c.s.procs[h.value].priority, c.s.procs[c.cur.value].priority) {
      SwitchKeepsTop(c, h.value);
    }
  }

  /** A switch to a process at least as high as every ready one and higher
      than the current one leaves it on top. */
  lemma SwitchKeepsTop(c: Cpu, h: ProcId)
    requires ValidCpu(c) && h < |c.s.procs| && h in c.s.ready
    requires forall x :: x in c.s.ready ==> c.s.procs[x].priority <= c.s.procs[h].priority
    requires c.cur.Some? ==> c.s.procs[c.cur.value].priority < c.s.procs[h].priority
    ensures var r := SwitchTo(c, h);
      forall x :: x in r.s.ready ==> r.s.procs[x].priority <= r.s.procs[h].priority
  {
    var r := SwitchTo(c, h);
    if c.cur.Some? {
      SwitchAwayProcs(c, h, r);
      SwitchAwayQueues(c, h, r);
      TopAmong(c.s.procs, c.s.ready, h, [c.cur.value], r.s.procs, r.s.ready);
    } else {
      SwitchFresh(c, h, r);
      TopAmong(c.s.procs, c.s.ready, h, [], r.s.procs, r.s.ready);
    }
  }

  /** With priorities unchanged, a process of top priority among the ready
      stays on top once it leaves the queue and lower processes join it. */
  lemma TopAmong(ps: seq<Pcb>, ready: Queue, h: ProcId, extra: Queue, rs: seq<Pcb>, rready: Queue)
    requires h < |ps| && |rs| == |ps|
    requires forall x :: x in ready ==> x < |ps| && ps[x].priority <= ps[h].priority
    requires forall x :: x in extra ==> x < |ps| && ps[x].priority < ps[h].priority
    requires forall k :: 0 <= k < |ps| ==> rs[k].priority == ps[k].priority
    requires rready == Remove(ready, h) + extra
    ensures forall x :: x in rready ==> x < |rs| && rs[x].priority <= rs[h].priority
  {
    forall x | x in rready
      ensures x < |rs| && rs[x].priority <= rs[h].priority
    {
      if x !in extra {
        RemoveIn<ProcId>(ready, h, x);
      }
    }
  }

  /** First come, first served never switches processes in the middle: a
      current process stays current until it blocks or finishes, and each
      pass moves its instruction pointer on by one. */
  lemma FcfsNonPreemptive(c: Cpu)
    requires ValidCpu(c) && c.cur.Some?
    ensures var r := FcfsStep(c);
      && r.Continue?
      && (r.next.cur == c.cur || r.next.cur.None?)
      && (r.next.cur == c.cur ==> r.next.s.procs[c.cur.value].pc == c.s.procs[c.cur.value].pc + 1)
  {
    var p := c.cur.value;
    if c.s.procs[p].pc < |c.s.procs[p].instrs| {
      ExecuteInstrFrame(c.s, p);
    }
  }

  /** A blocked request under first come, first served: the request puts the
      process on the waiting queue and the loop puts it there again, with a
      second "waiting" line; in between only an arrival may be logged. */
  lemma FcfsBlockEnqueuesTwice(c: Cpu, n: string)
    requires ValidCpu(c) && c.cur.Some?
    requires var pcb := c.s.procs[c.cur.value];
      pcb.pc < |pcb.instrs| && pcb.instrs[pcb.pc] == Req(n)
    requires FirstAvailable(c.s.ledger, n).None?
    requires c.s.arrivals == [] || c.s.arrivals[0] != Some(c.cur.value)
    ensures FcfsStep(c).Continue? && FcfsStep(c).next.cur.None?
    ensures FcfsStep(c).next.s.waiting == c.s.waiting + [c.cur.value, c.cur.value]
    ensures FcfsStep(c).next.s.procs[c.cur.value].state == Waiting
    ensures FcfsStep(c).next.s.trace ==
      c.s.trace + [LogWaiting(c.s.procs[c.cur.value].name, n)] + ArrivalLog(c.s)
        + [LogWaiting(c.s.procs[c.cur.value].name, n)]
  {
    var p := c.cur.value;
    var s1 := ExecuteInstr(c.s, p);
    BlockedRequest(c.s, p, n, s1);
    var s2 := CheckForNewArrivals(s1).0;
    PollKeepsBlocked(s1, p, s2);
    assert FcfsStep(c) == Continue(FcfsSettle(s2, p, n));
    assert [c.cur.value, c.cur.value] == [p] + [p];
  }

  /** The request of a name with no free copy: the process is WAITING at the
      tail of the waiting queue and the refusal is logged. */
  lemma BlockedRequest(s: Sys, p: ProcId, n: string, s1: Sys)
    requires ValidIds(s) && p < |s.procs|
    requires s.procs[p].pc < |s.procs[p].instrs| && s.procs[p].instrs[s.procs[p].pc] == Req(n)
    requires FirstAvailable(s.ledger, n).None?
    requires s1 == ExecuteInstr(s, p)
    ensures s1.waiting == s.waiting + [p] && s1.procs[p].state == Waiting
    ensures s1.trace == s.trace + [LogWaiting(s.procs[p].name, n)]
    ensures s1.arrivals == s.arrivals && s1.procs[p].name == s.procs[p].name
    ensures ArrivalLog(s1) == ArrivalLog(s)
  {
    assert s1 == RequestResource(s, p, n);
    if s.arrivals != [] && s.arrivals[0].Some? {
      var a := s.arrivals[0].value;
      assert s1.procs[a].name == s.procs[a].name;
    }
  }

  /** An arrival poll that does not bring back `p` itself leaves a WAITING
      `p` where it is and appends at most one "ready" line. */
  lemma PollKeepsBlocked(s1: Sys, p: ProcId, s2: Sys)
    requires ValidIds(s1) && p < |s1.procs| && s1.procs[p].state == Waiting
    requires s1.arrivals == [] || s1.arrivals[0] != Some(p)
    requires s2 == CheckForNewArrivals(s1).0
    ensures s2.waiting == s1.waiting && s2.procs[p].state == Waiting
    ensures s2.procs[p].name == s1.procs[p].name
    ensures s2.trace == s1.trace + ArrivalLog(s1)
  {
  }

  /** The "ready" line the arrival poll logs, if any. */
  function ArrivalLog(s: Sys): (r: seq<Event>)
    requires ValidIds(s)
    ensures |r| <= 1
    ensures r != [] <==> s.arrivals != [] && s.arrivals[0].Some?
  {
    if s.arrivals != [] && s.arrivals[0].Some? then [LogReady(s.procs[s.arrivals[0].value].name)] else []
  }
}
