/** Properties of whole passes of the two scheduler loops: they keep mutual
    exclusion of resources, never change a process's instructions, and move
    at most one instruction pointer, by one, forward. */
module Loops {
  import opened ProcStructs
  import opened Seqs
  import opened Queues
  import opened Ledger
  import opened Manager
  import opened Exclusion
  import opened Scheduler

  /** The state a pass leaves: the next iteration's, or the final one. */
  function After(r: Step): (s: Sys)
    ensures r.Continue? ==> s == r.next.s
    ensures r.Halt? ==> s == r.sys
  {
    match r
    case Continue(c) => c.s
    case Halt(s, _) => s
  }

  function OutcomeSys(o: Outcome): (s: Sys)
    ensures o.Done? ==> s == o.sys
    ensures o.OutOfFuel? ==> s == o.cpu.s
  {
    match o
    case Done(s, _) => s
    case OutOfFuel(c) => c.s
  }

  /** Same ledger and same held lists. */
  predicate SameResources(a: Sys, b: Sys) {
    a.ledger == b.ledger && |a.procs| == |b.procs| &&
    forall k :: 0 <= k < |a.procs| ==> b.procs[k].held == a.procs[k].held
  }

  lemma SameResourcesExclusive(a: Sys, b: Sys)
    requires Exclusive(a) && SameResources(a, b)
    ensures Exclusive(b)
  {
    ExclusiveFrame(a, b);
  }

  lemma SwitchSameResources(c: Cpu, h: ProcId)
    requires ValidCpu(c) && h < |c.s.procs|
    ensures SameResources(c.s, SwitchTo(c, h).s)
  {
    var s1 := if c.cur.Some? then MoveProcToRq(c.s, c.cur.value) else c.s;
    assert SameResources(c.s, s1);
    var s2 := RemoveProcFromReadyq(s1, Some(h));
    assert s2.procs == s1.procs;
  }

  lemma PreemptKeepsExclusive(c: Cpu)
    requires ValidCpu(c) && Exclusive(c.s)
    ensures Exclusive(Preempt(c).s)
  {
    var h := FindHighestPriorityProc(c.s.procs, c.s.ready);
    if h.Some? && (c.cur.None? || HigherPriority(c.s.procs[h.value].priority, c.s.procs[c.cur.value].priority)) {
      SwitchSameResources(c, h.value);
      SameResourcesExclusive(c.s, Preempt(c).s);
    }
  }

  lemma SelectKeepsExclusive(c: Cpu)
    requires ValidCpu(c) && Exclusive(c.s)
    ensures Exclusive(Select(c).s)
  {
    var r := Select(c);
    if c.cur.None? {
      var h := FindHighestPriorityProc(c.s.procs, c.s.ready);
      if h.Some? {
        var s1 := RemoveProcFromReadyq(c.s, h);
        assert s1.procs == c.s.procs;
        assert SameResources(c.s, r.s);
        SameResourcesExclusive(c.s, r.s);
      }
    }
  }

  /** Executing an instruction and polling the arrivals. */
  lemma ExecutePollKeepsExclusive(s: Sys, p: ProcId)
    requires ValidIds(s) && p < |s.procs| && Exclusive(s)
    ensures Exclusive(CheckForNewArrivals(ExecuteInstr(s, p)).0)
  {
    ExecuteKeepsExclusive(s, p);
    ArrivalKeepsExclusive(ExecuteInstr(s, p));
  }

  lemma RunCurrentKeepsExclusive(c: Cpu)
    requires ValidCpu(c) && Exclusive(c.s)
    ensures Exclusive(RunCurrent(c).s)
  {
    if c.cur.Some? && c.s.procs[c.cur.value].state == Running {
      RunTurnKeepsExclusive(c.s, c.cur.value);
    }
  }

  lemma RunTurnKeepsExclusive(s: Sys, p: ProcId)
    requires ValidIds(s) && p < |s.procs| && Exclusive(s)
    ensures Exclusive(RunTurn(s, p).s)
  {
    var pcb := s.procs[p];
    var polled := CheckForNewArrivals(ExecuteInstr(s, p));
    ExecutePollKeepsExclusive(s, p);
    AfterPollKeepsExclusive(polled.0, p, pcb.pc < |pcb.instrs|, polled.1);
  }

  lemma AfterPollKeepsExclusive(s: Sys, p: ProcId, hadInstr: bool, arrived: bool)
    requires ValidIds(s) && p < |s.procs| && Exclusive(s)
    ensures Exclusive(PreemptChecks(PriSettle(s, p, hadInstr), arrived).s)
  {
    var c3 := PriSettle(s, p, hadInstr);
    assert SameResources(s, c3.s);
    SameResourcesExclusive(s, c3.s);
    PreemptChecksKeepsExclusive(c3, arrived);
  }

  lemma PreemptChecksKeepsExclusive(c: Cpu, arrived: bool)
    requires ValidCpu(c) && Exclusive(c.s)
    ensures Exclusive(PreemptChecks(c, arrived).s)
  {
    PreemptKeepsExclusive(c);
    PreemptKeepsExclusive(if arrived then Preempt(c) else c);
  }

  lemma EndChecksKeepsExclusive(c: Cpu)
    requires ValidCpu(c) && Exclusive(c.s)
    ensures Exclusive(After(EndChecks(c)))
  {
    if c.cur.None? && c.s.ready == [] && c.s.waiting == [] {
      ArrivalKeepsExclusive(c.s);
    }
  }

  /** A pass of the priority loop keeps mutual exclusion. */
  lemma PriorityKeepsExclusive(c: Cpu)
    requires ValidCpu(c) && Exclusive(c.s)
    ensures Exclusive(After(PriorityStep(c)))
  {
    if !(c.s.ready == [] && c.s.waiting == [] && c.cur.None?) {
      SelectKeepsExclusive(c);
      RunCurrentKeepsExclusive(Select(c));
      EndChecksKeepsExclusive(RunCurrent(Select(c)));
    }
  }

  /** A pass of the first-come-first-served loop keeps mutual exclusion. */
  lemma FcfsKeepsExclusive(c: Cpu)
    requires ValidCpu(c) && Exclusive(c.s)
    ensures Exclusive(After(FcfsStep(c)))
  {
    var r := FcfsStep(c);
    match c.cur
    case None =>
      if c.s.ready != [] {
        assert SameResources(c.s, After(r));
        SameResourcesExclusive(c.s, After(r));
      }
    case Some(p) =>
      var pcb := c.s.procs[p];
      if pcb.pc >= |pcb.instrs| {
        assert SameResources(c.s, After(r));
        SameResourcesExclusive(c.s, After(r));
      } else {
        var s2 := CheckForNewArrivals(ExecuteInstr(c.s, p)).0;
        ExecutePollKeepsExclusive(c.s, p);
        assert SameResources(s2, After(r));
        SameResourcesExclusive(s2, After(r));
      }
  }

  /** Mutual exclusion holds wherever a run of either loop stops. */
  lemma {:induction false} RunFcfsKeepsExclusive(c: Cpu, fuel: nat)
    requires ValidCpu(c) && Exclusive(c.s)
    ensures Exclusive(OutcomeSys(RunFcfs(c, fuel)))
    decreases fuel, 0
  {
    if fuel > 0 {
      FcfsKeepsExclusive(c);
      FcfsFromKeepsExclusive(FcfsStep(c), fuel - 1);
    }
  }

  lemma {:induction false} FcfsFromKeepsExclusive(r: Step, fuel: nat)
    requires r.Continue? ==> ValidCpu(r.next)
    requires r.Halt? ==> !r.deadlock
    requires Exclusive(After(r))
    ensures Exclusive(OutcomeSys(FcfsFrom(r, fuel)))
    decreases fuel, 1
  {
    if r.Continue? {
      RunFcfsKeepsExclusive(r.next, fuel);
    }
  }

  lemma {:induction false} RunPriorityKeepsExclusive(c: Cpu, fuel: nat)
    requires ValidCpu(c) && Exclusive(c.s)
    ensures Exclusive(OutcomeSys(RunPriority(c, fuel)))
    decreases fuel, 0
  {
    if fuel > 0 {
      var r := PriorityStep(c);
      PriorityStepFacts(c, r);
      PriorityFromKeepsExclusive(r, fuel - 1);
    }
  }

  /** What a run needs to know of one pass of the priority loop. */
  lemma PriorityStepFacts(c: Cpu, r: Step)
    requires ValidCpu(c) && Exclusive(c.s) && r == PriorityStep(c)
    ensures r.Continue? ==> ValidCpu(r.next)
    ensures r.Halt? && r.deadlock ==> DeadlockEnd(r.sys)
    ensures Exclusive(After(r))
  {
    PriorityKeepsExclusive(c);
    PriorityDeadlockVerdict(c);
  }

  lemma {:induction false} PriorityFromKeepsExclusive(r: Step, fuel: nat)
    requires r.Continue? ==> ValidCpu(r.next)
    requires r.Halt? && r.deadlock ==> DeadlockEnd(r.sys)
    requires Exclusive(After(r))
    ensures Exclusive(OutcomeSys(PriorityFrom(r, fuel)))
    decreases fuel, 1
  {
    if r.Continue? {
      RunPriorityKeepsExclusive(r.next, fuel);
    }
  }

  /** Whatever the policy code, scheduling keeps mutual exclusion. */
  lemma ScheduleKeepsExclusive(code: int, s: Sys, fuel: nat)
    requires ValidIds(s) && Exclusive(s)
    ensures Exclusive(OutcomeSys(ScheduleProcesses(code, s, fuel)))
  {
    RunFcfsKeepsExclusive(Cpu(s, None), fuel);
    RunPriorityKeepsExclusive(Cpu(s, None), fuel);
  }

  // ---------------------------------------------------------------------
  // Instructions and instruction pointers

  /** From table `a` to table `b` names, priorities and instruction lists
      stay, and only the process `who` may have moved its instruction
      pointer, by one. */
  predicate CodeMoves(a: seq<Pcb>, b: seq<Pcb>, who: Option<ProcId>) {
    |a| == |b| &&
    forall k :: 0 <= k < |a| ==>
      && b[k].name == a[k].name && b[k].priority == a[k].priority && b[k].instrs == a[k].instrs
      && (b[k].pc == a[k].pc || (who == Some(k) && b[k].pc == a[k].pc + 1))
  }

  lemma CodeMovesThen(a: seq<Pcb>, b: seq<Pcb>, c: seq<Pcb>, w: Option<ProcId>)
    requires (CodeMoves(a, b, None) && CodeMoves(b, c, w)) || (CodeMoves(a, b, w) && CodeMoves(b, c, None))
    ensures CodeMoves(a, c, w)
  {
  }

  lemma SameButStatesCode(a: seq<Pcb>, b: seq<Pcb>)
    requires SameButStates(a, b)
    ensures CodeMoves(a, b, None)
  {
    forall k | 0 <= k < |a|
      ensures b[k].name == a[k].name && b[k].priority == a[k].priority && b[k].instrs == a[k].instrs && b[k].pc == a[k].pc
    {
      assert b[k] == a[k].(state := b[k].state);
    }
  }

  lemma ReleaseKeepsCode(s: Sys, p: ProcId, n: string)
    requires ValidIds(s) && p < |s.procs|
    ensures CodeMoves(s.procs, ReleaseResource(s, p, n).procs, None)
  {
    if n in s.procs[p].held {
      var s1 := Unhold(s, p, n);
      assert CodeMoves(s.procs, s1.procs, None);
      MoveMatchingFrame(s1, s1.waiting, [], pcb => IsWaitingForResource(pcb, n));
      SameButStatesCode(s1.procs, ReleaseResource(s, p, n).procs);
      CodeMovesThen(s.procs, s1.procs, ReleaseResource(s, p, n).procs, None);
    }
  }

  /** No instruction changes an instruction list or pointer. */
  lemma ExecuteKeepsCode(s: Sys, p: ProcId)
    requires ValidIds(s) && p < |s.procs|
    ensures CodeMoves(s.procs, ExecuteInstr(s, p).procs, None)
  {
    match NextInstr(s.procs[p])
    case None =>
    case Some(i) =>
      match i
      case Req(n) =>
      case Rel(n) =>
        var s1 := ReleaseResource(s, p, n);
        ReleaseKeepsCode(s, p, n);
        var l := s1.ledger;
        MoveMatchingFrame(s1, s1.waiting, [], pcb => CanResume(pcb, l));
        SameButStatesCode(s1.procs, ExecuteInstr(s, p).procs);
        CodeMovesThen(s.procs, s1.procs, ExecuteInstr(s, p).procs, None);
      case Send(_, _) =>
      case Recv(_, _) =>
  }

  lemma ExecutePollKeepsCode(s: Sys, p: ProcId)
    requires ValidIds(s) && p < |s.procs|
    ensures CodeMoves(s.procs, CheckForNewArrivals(ExecuteInstr(s, p)).0.procs, None)
  {
    ExecuteKeepsCode(s, p);
    var s1 := ExecuteInstr(s, p);
    assert CodeMoves(s1.procs, CheckForNewArrivals(s1).0.procs, None);
  }

  lemma SetStateCode(s: Sys, p: ProcId, st: State)
    requires p < |s.procs|
    ensures CodeMoves(s.procs, SetState(s, p, st).procs, None)
  {
  }

  lemma SwitchKeepsCode(c: Cpu, h: ProcId)
    requires ValidCpu(c) && h < |c.s.procs|
    ensures CodeMoves(c.s.procs, SwitchTo(c, h).s.procs, None)
  {
    var s1 := if c.cur.Some? then MoveProcToRq(c.s, c.cur.value) else c.s;
    if c.cur.Some? {
      SetStateCode(c.s, c.cur.value, Ready);
    }
    var s2 := RemoveProcFromReadyq(s1, Some(h));
    assert s2.procs == s1.procs;
    SetStateCode(s2, h, Running);
    CodeMovesThen(c.s.procs, s1.procs, SwitchTo(c, h).s.procs, None);
  }

  lemma PreemptKeepsCode(c: Cpu)
    requires ValidCpu(c)
    ensures CodeMoves(c.s.procs, Preempt(c).s.procs, None)
  {
    var h := FindHighestPriorityProc(c.s.procs, c.s.ready);
    if h.Some? && (c.cur.None? || HigherPriority(c.s.procs[h.value].priority, c.s.procs[c.cur.value].priority)) {
      SwitchKeepsCode(c, h.value);
    }
  }

  lemma RunCurrentCode(c: Cpu)
    requires ValidCpu(c)
    ensures CodeMoves(c.s.procs, RunCurrent(c).s.procs, c.cur)
  {
    if c.cur.Some? && c.s.procs[c.cur.value].state == Running {
      RunTurnCode(c.s, c.cur.value);
    }
  }

  lemma RunTurnCode(s: Sys, p: ProcId)
    requires ValidIds(s) && p < |s.procs|
    ensures CodeMoves(s.procs, RunTurn(s, p).s.procs, Some(p))
  {
    var pcb := s.procs[p];
    var polled := CheckForNewArrivals(ExecuteInstr(s, p));
    ExecutePollKeepsCode(s, p);
    var c3 := PriSettle(polled.0, p, pcb.pc < |pcb.instrs|);
    assert CodeMoves(polled.0.procs, c3.s.procs, Some(p));
    CodeMovesThen(s.procs, polled.0.procs, c3.s.procs, Some(p));
    PreemptChecksCode(c3, polled.1);
    CodeMovesThen(s.procs, c3.s.procs, RunTurn(s, p).s.procs, Some(p));
  }

  lemma PreemptChecksCode(c: Cpu, arrived: bool)
    requires ValidCpu(c)
    ensures CodeMoves(c.s.procs, PreemptChecks(c, arrived).s.procs, None)
  {
    var c4 := if arrived then Preempt(c) else c;
    PreemptKeepsCode(c);
    PreemptKeepsCode(c4);
    CodeMovesThen(c.s.procs, c4.s.procs, PreemptChecks(c, arrived).s.procs, None);
  }

  /** A pass of the priority loop never changes an instruction list and
      moves only the pointer of the process it ran, by one. */
  lemma PriorityStepCode(c: Cpu)
    requires ValidCpu(c)
    ensures CodeMoves(c.s.procs, After(PriorityStep(c)).procs, Select(c).cur)
  {
    if !(c.s.ready == [] && c.s.waiting == [] && c.cur.None?) {
      var c1 := Select(c);
      var c2 := RunCurrent(c1);
      SelectCode(c);
      RunCurrentCode(c1);
      CodeMovesThen(c.s.procs, c1.s.procs, c2.s.procs, c1.cur);
      EndChecksCode(c2);
      CodeMovesThen(c.s.procs, c2.s.procs, After(EndChecks(c2)).procs, c1.cur);
    }
  }

  lemma SelectCode(c: Cpu)
    requires ValidCpu(c)
    ensures CodeMoves(c.s.procs, Select(c).s.procs, None)
  {
    if c.cur.None? {
      var h := FindHighestPriorityProc(c.s.procs, c.s.ready);
      if h.Some? {
        var s1 := RemoveProcFromReadyq(c.s, h);
        assert s1.procs == c.s.procs;
        SetStateCode(s1, h.value, Running);
      }
    }
  }

  lemma EndChecksCode(c: Cpu)
    requires ValidCpu(c)
    ensures CodeMoves(c.s.procs, After(EndChecks(c)).procs, None)
  {
  }

  /** A pass of the first-come-first-served loop never changes an
      instruction list and moves only the current process's pointer, by
      one. */
  lemma FcfsStepCode(c: Cpu)
    requires ValidCpu(c)
    ensures CodeMoves(c.s.procs, After(FcfsStep(c)).procs, c.cur)
  {
    match c.cur
    case None =>
      if c.s.ready != [] {
        SetStateCode(c.s.(ready := c.s.ready[1..]), c.s.ready[0], Running);
      }
    case Some(p) =>
      var pcb := c.s.procs[p];
      if pcb.pc < |pcb.instrs| {
        FcfsRunCode(c, p);
      } else if pcb.state != Waiting {
        SetStateCode(c.s, p, Terminated);
      }
  }

  lemma FcfsRunCode(c: Cpu, p: ProcId)
    requires ValidCpu(c) && c.cur == Some(p)
    requires c.s.procs[p].pc < |c.s.procs[p].instrs|
    ensures CodeMoves(c.s.procs, After(FcfsStep(c)).procs, c.cur)
  {
    var pcb := c.s.procs[p];
    var s2 := CheckForNewArrivals(ExecuteInstr(c.s, p)).0;
    ExecutePollKeepsCode(c.s, p);
    var n := pcb.instrs[pcb.pc].resourceName;
    FcfsSettleCode(s2, p, n);
    assert After(FcfsStep(c)) == FcfsSettle(s2, p, n).s;
    CodeMovesThen(c.s.procs, s2.procs, FcfsSettle(s2, p, n).s.procs, c.cur);
  }

  lemma FcfsSettleCode(s: Sys, p: ProcId, n: string)
    requires ValidIds(s) && p < |s.procs|
    ensures CodeMoves(s.procs, FcfsSettle(s, p, n).s.procs, Some(p))
  {
    if s.procs[p].state == Waiting {
      SetStateCode(s, p, Waiting);
    }
  }
}
