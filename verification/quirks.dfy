/** Small concrete situations in which the manager, as written, does what
    its comments and the rest of its design do not lead one to expect. The
    general lemmas elsewhere exclude each of them by a precondition (names
    in the ledger are distinct, a process does not block, and so on); these
    show that the preconditions are needed. */
module Quirks {
  import opened ProcStructs
  import opened Seqs
  import opened Queues
  import opened Ledger
  import opened Manager
  import opened Scheduler
  import opened Partition
  import opened Exclusion

  /** Two records share a name, the first taken and the second free: the
      availability query says no while a request would succeed, so the
      availability wake-up never resumes a process a request would serve. */
  lemma QueriesDisagreeOnRepeatedNames()
    ensures var l := [Resource("r", No), Resource("r", Yes)];
      && !IsResourceAvailable(l, "r")
      && FirstAvailable(l, "r") == Some(1)
  {
    var l := [Resource("r", No), Resource("r", Yes)];
    assert FirstNamed(l, "r") == 0;
  }

  /** With repeated names a release can free the wrong record: a process
      that took the second record "r" gives it back, the first record
      (already free) is marked free again and the second stays taken with
      nobody holding it. */
  lemma ReleaseFreesWrongRecord()
    ensures var pcb := Pcb("A", 1, Running, [Rel("r")], 0, ["r"]);
      var s := Sys([pcb], [Resource("r", Yes), Resource("r", No)], [], [], [], [], []);
      var r := ReleaseResource(s, 0, "r");
      && r.procs[0].held == []
      && r.ledger == s.ledger
      && r.ledger[1] == Resource("r", No)
  {
    var pcb := Pcb("A", 1, Running, [Rel("r")], 0, ["r"]);
    var s := Sys([pcb], [Resource("r", Yes), Resource("r", No)], [], [], [], [], []);
    assert FirstNamed(s.ledger, "r") == 0;
    assert Remove(pcb.held, "r") == [];
  }

  /** is_waiting_for_resource looks past the instruction a process is
      blocked on: a process blocked on "b" that will later ask for "a" is
      woken by a release of "a". */
  lemma WaitingLooksAhead()
    ensures IsWaitingForResource(Pcb("B", 1, Waiting, [Req("b"), Req("a")], 0, []), "a")
  {
    var pcb := Pcb("B", 1, Waiting, [Req("b"), Req("a")], 0, []);
    assert pcb.instrs[1] == Req("a");
  }

  /** The availability wake-up does not look at the kind of the next
      instruction: a waiting process whose next instruction is a release
      is resumed when that resource is free, though
      is_resource_available_for_process, which does check, says no. */
  lemma ResumeIgnoresKind()
    ensures var pcb := Pcb("C", 1, Waiting, [Rel("r")], 0, []);
      var l := [Resource("r", Yes)];
      && CanResume(pcb, l)
      && !IsResourceAvailableForProcess(Some(pcb), l)
  {
  }

  /** The deadlock check does not look at the current process: a process
      still RUNNING that would release what the waiting one needs does not
      stop the loop from ending with a deadlock. */
  lemma DeadlockWhileRunning()
    ensures var a := Pcb("A", 1, Running, [Rel("r")], 0, ["r"]);
      var b := Pcb("B", 1, Waiting, [Req("r")], 0, []);
      var c := Cpu(Sys([a, b], [Resource("r", No)], [], [1], [], [], []), Some(0));
      && Exclusive(c.s)
      && EndChecks(c).Halt? && EndChecks(c).deadlock
  {
    var a := Pcb("A", 1, Running, [Rel("r")], 0, ["r"]);
    var b := Pcb("B", 1, Waiting, [Req("r")], 0, []);
    var c := Cpu(Sys([a, b], [Resource("r", No)], [], [1], [], [], []), Some(0));
    assert AllHeld([b]) == multiset{} by {
      assert [b][1..] == [];
    }
    assert [a, b][1..] == [b];
    assert AllHeld([a, b]) == multiset{"r"};
    assert Known(c.s.ledger, "r") by {
      assert c.s.ledger[0].name == "r";
    }
  }

  /** The start of a pass of the priority loop: "low" (priority 1) is
      RUNNING and about to ask for "r", which "done" took before it
      terminated; "high" (priority 5) is the next arrival. */
  function PreemptScene(): (c: Cpu)
    ensures ValidCpu(c) && c.cur == Some(0) && c.s.ready == [] && c.s.waiting == []
  {
    var low := Pcb("low", 1, Running, [Req("r")], 0, []);
    var high := Pcb("high", 5, New, [], 0, []);
    var done := Pcb("done", 3, Terminated, [], 0, ["r"]);
    Cpu(Sys([low, high, done], [Resource("r", No)], [], [], [2], [Some(1)], []), Some(0))
  }

  lemma PreemptSceneStart()
    ensures Partitioned(PreemptScene()) && Exclusive(PreemptScene().s)
  {
    PreemptScenePartitioned(PreemptScene());
    PreemptSceneExclusive(PreemptScene());
  }

  lemma PreemptScenePartitioned(c: Cpu)
    requires c == PreemptScene()
    ensures Partitioned(c)
  {
    assert Pending(c.s.arrivals) == multiset{1};
    assert Members(c) == multiset{0, 1, 2};
  }

  lemma PreemptSceneExclusive(c: Cpu)
    requires c == PreemptScene()
    ensures Exclusive(c.s)
  {
    assert c.s.procs[1..][1..] == [c.s.procs[2]] && [c.s.procs[2]][1..] == [];
    assert AllHeld(c.s.procs) == multiset{"r"};
    assert Known(c.s.ledger, "r") by {
      assert c.s.ledger[0].name == "r";
    }
  }

  /** The request blocks "low" and "high" arrives in the same poll. */
  lemma PreemptSceneBlocks()
    ensures var c := PreemptScene();
      var (s2, arrived) := CheckForNewArrivals(ExecuteInstr(c.s, 0));
      && arrived && s2.ready == [1] && s2.waiting == [0]
      && s2.procs[0].state == Waiting && s2.procs[1].state == Ready
      && s2.procs[0].priority == 1 && s2.procs[1].priority == 5
      && PriSettle(s2, 0, true) == Cpu(s2, Some(0))
  {
    var c := PreemptScene();
    var s1 := ExecuteInstr(c.s, 0);
    assert s1.waiting == [0] && s1.procs[0].state == Waiting;
  }

  /** The first preemption check then switches to "high" and puts the
      blocked "low" on the ready queue; the second finds nothing higher. */
  lemma PreemptScenePreempts(s2: Sys)
    requires ValidIds(s2) && |s2.procs| == 3
    requires s2.ready == [1] && s2.waiting == [0]
    requires s2.procs[0].state == Waiting && s2.procs[1].state == Ready
    requires s2.procs[0].priority == 1 && s2.procs[1].priority == 5
    ensures var c4 := Preempt(Cpu(s2, Some(0)));
      && c4.cur == Some(1) && c4.s.ready == [0] && c4.s.waiting == [0]
      && c4.s.procs[0].state == Ready
      && Preempt(c4) == c4
  {
    var c3 := Cpu(s2, Some(0));
    assert FindHighestPriorityProc(s2.procs, s2.ready) == Some(1);
    var c4 := Preempt(c3);
    assert c4 == SwitchTo(c3, 1);
    assert Remove([1, 0], 1) == [0];
    assert c4.s.ready == [0];
    assert FindHighestPriorityProc(c4.s.procs, c4.s.ready) == Some(0);
  }

  lemma PreemptSceneRunCurrent()
    ensures var c4 := RunCurrent(Select(PreemptScene()));
      && ValidCpu(c4) && c4.cur == Some(1) && c4.s.ready == [0] && c4.s.waiting == [0]
      && c4.s.procs[0].state == Ready
  {
    var c := PreemptScene();
    PreemptSceneBlocks();
    var (s2, arrived) := CheckForNewArrivals(ExecuteInstr(c.s, 0));
    PreemptScenePreempts(s2);
    assert Select(c) == c;
  }

  /** With a process ready the end-of-pass checks let the loop go on
      unchanged. */
  lemma EndChecksWithReady(c: Cpu)
    requires ValidCpu(c) && c.s.ready != []
    ensures EndChecks(c) == Continue(c)
  {
  }

  /** The priority loop puts a blocked process on the ready queue: at the
      end of the pass "low" is READY on the ready queue and still on the
      waiting queue, so the partition that held at its start is broken. */
  lemma BlockedProcessPreempted()
    ensures var c := PreemptScene();
      var r := PriorityStep(c);
      && Partitioned(c)
      && r.Continue? && r.next.cur == Some(1)
      && r.next.s.ready == [0] && r.next.s.waiting == [0]
      && r.next.s.procs[0].state == Ready
      && !Partitioned(r.next)
  {
    var c := PreemptScene();
    PreemptSceneStart();
    PreemptSceneRunCurrent();
    var c4 := RunCurrent(Select(c));
    EndChecksWithReady(c4);
    assert PriorityStep(c) == Continue(c4);
    DoubleBooked(c4, 0);
  }
}
