/** The resource manager and the queue moves of the process manager: the
    state the scheduler loops work on, resource request and release, the
    wake-up scans of the waiting queue, the arrival poll and the deadlock
    rule. */
module Manager {
  import opened ProcStructs
  import opened Seqs
  import opened Queues
  import opened Ledger

  /** One line of the scheduling log (the log_* calls), in call order. */
  datatype Event =
    | LogAcquired(proc: string, resource: string)
    | LogWaiting(proc: string, resource: string)
    | LogReady(proc: string)
    | LogReleased(proc: string, resource: string)
    | LogReleaseError(proc: string, resource: string)
    | LogTerminated(proc: string)
    | LogDeadlock

  /** Everything the manager keeps between two instructions: the process
      table, the resource ledger, the three queues, the arrivals the loader
      will hand out (one entry per poll, None for a poll with no arrival,
      NULL once the list is used up) and the log written so far. */
  datatype Sys = Sys(
    procs: seq<Pcb>,
    ledger: Ledger,
    ready: Queue,
    waiting: Queue,
    terminated: Queue,
    arrivals: seq<Option<ProcId>>,
    trace: seq<Event>)

  predicate InRange(q: Queue, n: nat) {
    forall k :: 0 <= k < |q| ==> q[k] < n
  }

  /** Every id the manager holds denotes a process (no dangling pointer). */
  predicate ValidIds(s: Sys) {
    && InRange(s.ready, |s.procs|)
    && InRange(s.waiting, |s.procs|)
    && InRange(s.terminated, |s.procs|)
    && forall k :: 0 <= k < |s.arrivals| && s.arrivals[k].Some? ==> s.arrivals[k].value < |s.procs|
  }

  function SetState(s: Sys, p: ProcId, st: State): (r: Sys)
    requires p < |s.procs|
    ensures |r.procs| == |s.procs| && (ValidIds(s) ==> ValidIds(r))
  {
    s.(procs := s.procs[p := s.procs[p].(state := st)])
  }

  /** move_proc_to_rq: state READY, tail of the ready queue, "ready" logged. */
  function MoveProcToRq(s: Sys, p: ProcId): (r: Sys)
    requires ValidIds(s) && p < |s.procs|
    ensures ValidIds(r)
    ensures r.procs == s.procs[p := s.procs[p].(state := Ready)]
    ensures r.ready == s.ready + [p] && r.trace == s.trace + [LogReady(s.procs[p].name)]
    ensures r.waiting == s.waiting && r.terminated == s.terminated
    ensures r.ledger == s.ledger && r.arrivals == s.arrivals
  {
    SetState(s, p, Ready).(ready := Enqueue(s.ready, Some(p)), trace := s.trace + [LogReady(s.procs[p].name)])
  }

  /** move_proc_to_wq: state WAITING, tail of the waiting queue, "waiting"
      logged with the resource asked for. */
  function MoveProcToWq(s: Sys, p: ProcId, n: string): (r: Sys)
    requires ValidIds(s) && p < |s.procs|
    ensures ValidIds(r)
    ensures r.procs == s.procs[p := s.procs[p].(state := Waiting)]
    ensures r.waiting == s.waiting + [p] && r.trace == s.trace + [LogWaiting(s.procs[p].name, n)]
    ensures r.ready == s.ready && r.terminated == s.terminated
    ensures r.ledger == s.ledger && r.arrivals == s.arrivals
  {
    SetState(s, p, Waiting).(waiting := Enqueue(s.waiting, Some(p)), trace := s.trace + [LogWaiting(s.procs[p].name, n)])
  }

  /** move_proc_to_tq: state TERMINATED, tail of the terminated queue. */
  function MoveProcToTq(s: Sys, p: ProcId): (r: Sys)
    requires ValidIds(s) && p < |s.procs|
    ensures ValidIds(r)
    ensures r.procs == s.procs[p := s.procs[p].(state := Terminated)]
    ensures r.terminated == s.terminated + [p] && r.trace == s.trace + [LogTerminated(s.procs[p].name)]
    ensures r.ready == s.ready && r.waiting == s.waiting
    ensures r.ledger == s.ledger && r.arrivals == s.arrivals
  {
    SetState(s, p, Terminated).(terminated := Enqueue(s.terminated, Some(p)), trace := s.trace + [LogTerminated(s.procs[p].name)])
  }

  /** Hands ledger record `i` to process `p`: the record becomes taken and a
      copy (its name) is put at the head of the process's held list. */
  function Grant(s: Sys, p: ProcId, i: nat): (r: Sys)
    requires p < |s.procs| && i < |s.ledger|
  {
    s.(ledger := Take(s.ledger, i),
       procs := s.procs[p := s.procs[p].(held := [s.ledger[i].name] + s.procs[p].held)])
  }

  /** request_resource: takes the first available record called `n`, or
      else blocks the process on the waiting queue. The instruction pointer
      is left alone either way. */
  function RequestResource(s: Sys, p: ProcId, n: string): (r: Sys)
    requires ValidIds(s) && p < |s.procs|
    ensures ValidIds(r) && |r.procs| == |s.procs|
    ensures r.procs[p].pc == s.procs[p].pc && r.procs[p].instrs == s.procs[p].instrs
    ensures forall q :: 0 <= q < |s.procs| && q != p ==> r.procs[q] == s.procs[q]
    ensures r.ready == s.ready && r.terminated == s.terminated && r.arrivals == s.arrivals
    ensures FirstAvailable(s.ledger, n).Some? ==>
      var i := FirstAvailable(s.ledger, n).value;
      && |r.ledger| == |s.ledger|
      && r.ledger[i] == Resource(n, No)
      && (forall j :: 0 <= j < |s.ledger| && j != i ==> r.ledger[j] == s.ledger[j])
      && r.procs[p].held == [n] + s.procs[p].held
      && r.procs[p].state == s.procs[p].state
      && r.waiting == s.waiting
      && r.trace == s.trace + [LogAcquired(s.procs[p].name, n)]
    ensures FirstAvailable(s.ledger, n).None? ==>
      && r.ledger == s.ledger
      && r.procs[p].held == s.procs[p].held
      && r.procs[p].state == Waiting
      && r.waiting == s.waiting + [p]
      && r.trace == s.trace + [LogWaiting(s.procs[p].name, n)]
  {
    match FirstAvailable(s.ledger, n)
    case Some(i) => Grant(s, p, i).(trace := s.trace + [LogAcquired(s.procs[p].name, n)])
    case None => MoveProcToWq(s, p, n)
  }

  /** acquire_resource: the same scan as a request, without logging and
      without blocking; a NULL process or name is refused. */
  function AcquireResource(s: Sys, p: Option<ProcId>, n: Option<string>): (r: (Sys, bool))
    requires p.Some? ==> p.value < |s.procs|
    ensures r.1 <==> p.Some? && n.Some? && FirstAvailable(s.ledger, n.value).Some?
    ensures !r.1 ==> r.0 == s
    ensures r.1 ==>
      var i := FirstAvailable(s.ledger, n.value).value;
      && |r.0.ledger| == |s.ledger|
      && r.0.ledger[i] == Resource(n.value, No)
      && (forall j :: 0 <= j < |s.ledger| && j != i ==> r.0.ledger[j] == s.ledger[j])
      && r.0.procs == s.procs[p.value := s.procs[p.value].(held := [n.value] + s.procs[p.value].held)]
      && r.0.ready == s.ready && r.0.waiting == s.waiting && r.0.trace == s.trace
  {
    if p.None? || n.None? then (s, false)
    else match FirstAvailable(s.ledger, n.value)
      case Some(i) => (Grant(s, p.value, i), true)
      case None => (s, false)
  }

  /** pc <= j holds a request for `n`: is_waiting_for_resource's walk. */
  function PendingReq(instrs: seq<Instr>, from: nat, n: string): (r: bool)
    ensures r <==> exists j :: from <= j < |instrs| && instrs[j] == Req(n)
    decreases |instrs| - from
  {
    if from >= |instrs| then false
    else instrs[from] == Req(n) || PendingReq(instrs, from + 1, n)
  }

  /** is_waiting_for_resource: a WAITING process with a request for `n`
      ANYWHERE from its next instruction on, not only as the next one. */
  function IsWaitingForResource(pcb: Pcb, n: string): (r: bool)
    ensures r <==> pcb.state == Waiting && exists j :: pcb.pc <= j < |pcb.instrs| && pcb.instrs[j] == Req(n)
  {
    pcb.state == Waiting && PendingReq(pcb.instrs, pcb.pc, n)
  }

  /** The test of move_waiting_to_ready_based_on_resources: the resource
      NAMED by the next instruction is available, whatever the instruction's
      kind and whatever the process's state. */
  function CanResume(pcb: Pcb, l: Ledger): (r: bool)
    ensures r <==> NextInstr(pcb).Some? && IsResourceAvailable(l, NextInstr(pcb).value.resourceName)
  {
    pcb.pc < |pcb.instrs| && IsResourceAvailable(l, pcb.instrs[pcb.pc].resourceName)
  }

  /** is_resource_available_for_process: the next instruction is a request
      for a resource whose first record is available. */
  function IsResourceAvailableForProcess(pcb: Option<Pcb>, l: Ledger): (r: bool)
    ensures r <==> pcb.Some? && NextInstr(pcb.value).Some? && NextInstr(pcb.value).value.Req?
                   && IsResourceAvailable(l, NextInstr(pcb.value).value.resourceName)
  {
    match pcb
    case None => false
    case Some(x) => x.pc < |x.instrs| && x.instrs[x.pc].Req? && IsResourceAvailable(l, x.instrs[x.pc].resourceName)
  }

  /** With distinct record names, the query says yes exactly when the next
      instruction is a request that `request_resource` would grant. */
  lemma AvailableForProcessIsGrantable(pcb: Pcb, l: Ledger)
    requires DistinctNames(l)
    ensures IsResourceAvailableForProcess(Some(pcb), l) <==>
      && NextInstr(pcb).Some? && NextInstr(pcb).value.Req?
      && FirstAvailable(l, NextInstr(pcb).value.resourceName).Some?
  {
    if NextInstr(pcb).Some? {
      AvailabilityQueriesAgree(l, NextInstr(pcb).value.resourceName);
    }
  }

  /** Two process tables that differ at most in the processes' states. */
  predicate SameButStates(a: seq<Pcb>, b: seq<Pcb>) {
    |a| == |b| && forall k :: 0 <= k < |a| ==> b[k] == a[k].(state := b[k].state)
  }

  /** The walk both wake-up scans do over the waiting queue: each process in
      `rest` that `pred` accepts (tested on its CURRENT record) is unlinked
      and moved to the ready queue; the others stay behind `kept`, in order.
      Only states, the ready queue and the log change otherwise. */
  function MoveMatching(s: Sys, rest: Queue, kept: Queue, pred: Pcb -> bool): (r: Sys)
    requires ValidIds(s) && InRange(rest, |s.procs|) && InRange(kept, |s.procs|)
    ensures ValidIds(r) && |r.procs| == |s.procs|
    decreases |rest|
  {
    if rest == [] then s.(waiting := kept)
    else
      var p := rest[0];
      if pred(s.procs[p]) then
        MoveMatching(MoveProcToRq(s, p), rest[1..], kept, pred)
      else
        MoveMatching(s, rest[1..], kept + [p], pred)
  }

  /** What the walk leaves alone: held lists, instruction pointers, the
      ledger and the other queues; the ready queue and the log only grow at
      the end, and every process of `rest` ends up in exactly one of the
      ready queue and the waiting queue. */
  lemma {:induction false} MoveMatchingFrame(s: Sys, rest: Queue, kept: Queue, pred: Pcb -> bool)
    requires ValidIds(s) && InRange(rest, |s.procs|) && InRange(kept, |s.procs|)
    ensures var r := MoveMatching(s, rest, kept, pred);
      && SameButStates(s.procs, r.procs)
      && r.ledger == s.ledger && r.terminated == s.terminated && r.arrivals == s.arrivals
      && |r.ready| >= |s.ready| && r.ready[..|s.ready|] == s.ready
      && |r.waiting| >= |kept| && r.waiting[..|kept|] == kept
      && |r.trace| >= |s.trace| && r.trace[..|s.trace|] == s.trace
      && multiset(r.ready) + multiset(r.waiting) == multiset(s.ready) + multiset(kept) + multiset(rest)
    decreases |rest|
  {
    if rest != [] {
      var p := rest[0];
      assert rest == [p] + rest[1..];
      if pred(s.procs[p]) {
        var s1 := MoveProcToRq(s, p);
        MoveMatchingFrame(s1, rest[1..], kept, pred);
        assert s1.ready[..|s.ready|] == s.ready;
        assert s1.trace[..|s.trace|] == s.trace;
      } else {
        MoveMatchingFrame(s, rest[1..], kept + [p], pred);
        assert (kept + [p])[..|kept|] == kept;
      }
    }
  }

  /** move_waiting_pcbs_to_rq: the broadcast wake-up after a release. */
  function MoveWaitingPcbsToRq(s: Sys, n: string): (r: Sys)
    requires ValidIds(s)
    ensures ValidIds(r)
  {
    MoveMatching(s, s.waiting, [], pcb => IsWaitingForResource(pcb, n))
  }

  /** move_waiting_to_ready_based_on_resources. The ledger does not change
      during the walk, so it is read once. */
  function MoveWaitingToReadyBasedOnResources(s: Sys): (r: Sys)
    requires ValidIds(s)
    ensures ValidIds(r)
  {
    var l := s.ledger;
    MoveMatching(s, s.waiting, [], pcb => CanResume(pcb, l))
  }

  /** The first half of a successful release: the first held copy called
      `n` is unlinked, the first ledger record called `n` is freed and the
      release is logged. */
  function Unhold(s: Sys, p: ProcId, n: string): (r: Sys)
    requires ValidIds(s) && p < |s.procs|
    ensures ValidIds(r) && |r.procs| == |s.procs|
  {
    var pcb := s.procs[p];
    s.(procs := s.procs[p := pcb.(held := Remove(pcb.held, n))],
       ledger := MarkResourceAsAvailable(s.ledger, n),
       trace := s.trace + [LogReleased(pcb.name, n)])
  }

  /** release_resource: unlinks the first held copy called `n`, frees the
      first ledger record called `n`, logs the release and wakes every
      process waiting for `n`; without such a copy it only logs an error. */
  function ReleaseResource(s: Sys, p: ProcId, n: string): (r: Sys)
    requires ValidIds(s) && p < |s.procs|
    ensures ValidIds(r) && |r.procs| == |s.procs|
    ensures n !in s.procs[p].held ==> r == s.(trace := s.trace + [LogReleaseError(s.procs[p].name, n)])
    ensures n in s.procs[p].held ==>
      && r.ledger == MarkResourceAsAvailable(s.ledger, n)
      && r.procs[p].held == Remove(s.procs[p].held, n)
      && multiset(r.procs[p].held) == multiset(s.procs[p].held) - multiset{n}
      && r.procs[p].pc == s.procs[p].pc && r.procs[p].instrs == s.procs[p].instrs
      && r.terminated == s.terminated && r.arrivals == s.arrivals
      && |r.ready| >= |s.ready| && r.ready[..|s.ready|] == s.ready
      && |r.trace| > |s.trace| && r.trace[..|s.trace| + 1] == s.trace + [LogReleased(s.procs[p].name, n)]
  {
    if n in s.procs[p].held then
      var s1 := Unhold(s, p, n);
      var r := MoveWaitingPcbsToRq(s1, n);
      MoveMatchingFrame(s1, s1.waiting, [], pcb => IsWaitingForResource(pcb, n));
      assert r.procs[p] == s1.procs[p].(state := r.procs[p].state);
      r
    else
      s.(trace := s.trace + [LogReleaseError(s.procs[p].name, n)])
  }

  /** execute_instr: a request, or a release followed by the resource-based
      wake-up; send and receive do nothing, and so does a NULL instruction. */
  function ExecuteInstr(s: Sys, p: ProcId): (r: Sys)
    requires ValidIds(s) && p < |s.procs|
    ensures ValidIds(r) && |r.procs| == |s.procs|
  {
    match NextInstr(s.procs[p])
    case None => s
    case Some(i) =>
      match i
      case Req(n) => RequestResource(s, p, n)
      case Rel(n) => MoveWaitingToReadyBasedOnResources(ReleaseResource(s, p, n))
      case Send(_, _) => s
      case Recv(_, _) => s
  }

  /** An executed instruction never moves the instruction pointer (the
      scheduler loops do that) and never touches the terminated queue or the
      arrivals. */
  lemma ExecuteInstrFrame(s: Sys, p: ProcId)
    requires ValidIds(s) && p < |s.procs|
    ensures var r := ExecuteInstr(s, p);
      && r.procs[p].pc == s.procs[p].pc && r.procs[p].instrs == s.procs[p].instrs
      && r.terminated == s.terminated && r.arrivals == s.arrivals
  {
    if NextInstr(s.procs[p]).Some? && NextInstr(s.procs[p]).value.Rel? {
      var n := NextInstr(s.procs[p]).value.resourceName;
      var s1 := ReleaseResource(s, p, n);
      var l := s1.ledger;
      MoveMatchingFrame(s1, s1.waiting, [], pcb => CanResume(pcb, l));
      var r := MoveWaitingToReadyBasedOnResources(s1);
      assert r.procs[p] == s1.procs[p].(state := r.procs[p].state);
    }
  }

  /** check_for_new_arrivals: polls the loader once; an arriving process
      goes to the tail of the ready queue as READY. At most one per call. */
  function CheckForNewArrivals(s: Sys): (r: (Sys, bool))
    requires ValidIds(s)
    ensures ValidIds(r.0) && |r.0.procs| == |s.procs|
    ensures r.1 <==> s.arrivals != [] && s.arrivals[0].Some?
    ensures r.0.arrivals == (if s.arrivals == [] then [] else s.arrivals[1..])
    ensures r.0.ledger == s.ledger && r.0.waiting == s.waiting && r.0.terminated == s.terminated
    ensures !r.1 ==> r.0.ready == s.ready && r.0.procs == s.procs && r.0.trace == s.trace
    ensures r.1 ==>
      var p := s.arrivals[0].value;
      && r.0.ready == s.ready + [p]
      && r.0.procs == s.procs[p := s.procs[p].(state := Ready)]
      && r.0.trace == s.trace + [LogReady(s.procs[p].name)]
  {
    if s.arrivals == [] then (s, false)
    else
      var s1 := s.(arrivals := s.arrivals[1..]);
      match s.arrivals[0]
      case None => (s1, false)
      case Some(p) => (MoveProcToRq(s1, p), true)
  }

  /** check_deadlock: deadlock is declared exactly when nothing is ready and
      something is waiting; the running process is not looked at. */
  function CheckDeadlock(s: Sys): (r: (Sys, bool))
    ensures r.1 <==> s.ready == [] && s.waiting != []
    ensures r.1 ==> r.0 == s.(trace := s.trace + [LogDeadlock])
    ensures !r.1 ==> r.0 == s
  {
    if s.ready == [] && s.waiting != [] then (s.(trace := s.trace + [LogDeadlock]), true)
    else (s, false)
  }

  /** Process `q[k]` is the one find_highest_priority_proc settles on: its
      priority beats the INT_MIN the scan starts from, none in the queue is
      higher, and every process before it is strictly lower. */
  predicate IsFirstMax(procs: seq<Pcb>, q: Queue, k: int)
    requires InRange(q, |procs|)
  {
    && 0 <= k < |q|
    && procs[q[k]].priority > INT_MIN
    && (forall j :: 0 <= j < |q| ==> procs[q[j]].priority <= procs[q[k]].priority)
    && (forall j :: 0 <= j < k ==> procs[q[j]].priority < procs[q[k]].priority)
  }

  /** The scan of find_highest_priority_proc from position `i`, having kept
      position `best` (-1 for NULL) with priority `top`. */
  function HighestFrom(procs: seq<Pcb>, q: Queue, i: nat, best: int, top: int): (r: int)
    requires InRange(q, |procs|) && i <= |q| && -1 <= best < i
    requires best == -1 ==> top == INT_MIN && forall j :: 0 <= j < i ==> procs[q[j]].priority <= INT_MIN
    requires best >= 0 ==>
      && top == procs[q[best]].priority && top > INT_MIN
      && (forall j :: 0 <= j < i ==> procs[q[j]].priority <= top)
      && (forall j :: 0 <= j < best ==> procs[q[j]].priority < top)
    ensures -1 <= r < |q|
    ensures r == -1 ==> forall j :: 0 <= j < |q| ==> procs[q[j]].priority == INT_MIN
    ensures r >= 0 ==> IsFirstMax(procs, q, r)
    decreases |q| - i
  {
    if i == |q| then best
    else if procs[q[i]].priority > top then HighestFrom(procs, q, i + 1, i, procs[q[i]].priority)
    else HighestFrom(procs, q, i + 1, best, top)
  }

  /** find_highest_priority_proc: NULL when the ready queue is empty (or
      holds only INT_MIN priorities, which the strict comparison with INT_MIN
      never picks); otherwise a process of the ready queue. */
  function FindHighestPriorityProc(procs: seq<Pcb>, ready: Queue): (r: Option<ProcId>)
    requires InRange(ready, |procs|)
    ensures r.None? <==> forall j :: 0 <= j < |ready| ==> procs[ready[j]].priority == INT_MIN
    ensures r.Some? ==> r.value in ready && r.value < |procs|
  {
    var k := HighestFrom(procs, ready, 0, -1, INT_MIN);
    if k == -1 then None else Some(ready[k])
  }

  /** The process found is the earliest-enqueued one of maximal priority:
      none in the ready queue is higher and every one before it is strictly
      lower. */
  lemma HighestIsFirstMax(procs: seq<Pcb>, ready: Queue)
    requires InRange(ready, |procs|)
    ensures var r := FindHighestPriorityProc(procs, ready);
      && (r.Some? ==> exists k :: IsFirstMax(procs, ready, k) && ready[k] == r.value)
      && (r.Some? ==> forall x :: x in ready ==> procs[x].priority <= procs[r.value].priority)
  {
    var k := HighestFrom(procs, ready, 0, -1, INT_MIN);
    if k != -1 {
      assert IsFirstMax(procs, ready, k);
      forall x | x in ready
        ensures procs[x].priority <= procs[ready[k]].priority
      {
        var j :| 0 <= j < |ready| && ready[j] == x;
      }
    }
  }

  /** higher_priority: a larger number is more urgent. Nothing outranks
      INT_MAX and INT_MIN outranks nothing. */
  function HigherPriority(a: Int32, b: Int32): (r: bool)
    ensures r ==> a != INT_MIN && b != INT_MAX
    ensures a == b ==> !r
  {
    a > b
  }

  /** The comparison is a strict total order on priorities: irreflexive,
      asymmetric and transitive, and of two different priorities one is the
      higher. */
  lemma HigherPriorityOrder(a: Int32, b: Int32, c: Int32)
    ensures !HigherPriority(a, a)
    ensures HigherPriority(a, b) ==> !HigherPriority(b, a)
    ensures HigherPriority(a, b) && HigherPriority(b, c) ==> HigherPriority(a, c)
    ensures a != b ==> HigherPriority(a, b) || HigherPriority(b, a)
  {
  }

  /** init_queues: the loaded list becomes the ready queue as it is (its
      last element the tail); the waiting and terminated queues start empty.
      The walk to the tail dereferences the list, so it must not be NULL. */
  function InitQueues(procs: seq<Pcb>, ledger: Ledger, arrivals: seq<Option<ProcId>>, loaded: Queue): (r: Sys)
    requires loaded != []
    ensures r.ready == loaded && r.ready[|r.ready| - 1] == loaded[|loaded| - 1]
    ensures r.waiting == [] && r.terminated == [] && r.trace == []
    ensures r.procs == procs && r.ledger == ledger && r.arrivals == arrivals
  {
    Sys(procs, ledger, loaded, [], [], arrivals, [])
  }
}
