/** The records a simulated process is made of: its state, its instructions,
    the resources of the system and the process control block itself. */
module ProcStructs {

  /** A possibly missing value; `None` plays the part of a NULL pointer. */
  datatype Option<+T> = None | Some(value: T)

  /** Bounds of a C `int`, the type of a process priority. */
  const INT_MIN: int := -0x8000_0000
  const INT_MAX: int := 0x7fff_ffff
  type Int32 = x: int | INT_MIN <= x <= INT_MAX

  /** A process is named by its index in the table of all processes. */
  type ProcId = nat

  /** state_t: a process is in exactly one of these at a time. */
  datatype State = New | Ready | Running | Waiting | Terminated

  /** The enum value of a state (NEW = 0 up to TERMINATED = 4). */
  function StateCode(st: State): (n: int)
    ensures 0 <= n < 5
    ensures StateOfCode(n) == Some(st)
  {
    match st
    case New => 0
    case Ready => 1
    case Running => 2
    case Waiting => 3
    case Terminated => 4
  }

  /** Reads back the `int` stored in a process control block. */
  function StateOfCode(n: int): (r: Option<State>)
    ensures r.Some? <==> 0 <= n < 5
  {
    if n == 0 then Some(New)
    else if n == 1 then Some(Ready)
    else if n == 2 then Some(Running)
    else if n == 3 then Some(Waiting)
    else if n == 4 then Some(Terminated)
    else None
  }

  /** instr_types_t. */
  datatype InstrKind = ReqOp | RelOp | SendOp | RecvOp

  function InstrKindCode(k: InstrKind): (n: int)
    ensures 0 <= n < 4
    ensures InstrKindOfCode(n) == Some(k)
  {
    match k
    case ReqOp => 0
    case RelOp => 1
    case SendOp => 2
    case RecvOp => 3
  }

  function InstrKindOfCode(n: int): (r: Option<InstrKind>)
    ensures r.Some? <==> 0 <= n < 4
  {
    if n == 0 then Some(ReqOp)
    else if n == 1 then Some(RelOp)
    else if n == 2 then Some(SendOp)
    else if n == 3 then Some(RecvOp)
    else None
  }

  /** An instruction. Every kind names a resource or mailbox; only a send or
      a receive carries a message. */
  datatype Instr =
    | Req(resourceName: string)
    | Rel(resourceName: string)
    | Send(resourceName: string, msg: string)
    | Recv(resourceName: string, msg: string)

  function Kind(i: Instr): (k: InstrKind)
    ensures k == ReqOp <==> i.Req?
    ensures k == RelOp <==> i.Rel?
    ensures k == SendOp <==> i.Send?
    ensures k == RecvOp <==> i.Recv?
  {
    match i
    case Req(_) => ReqOp
    case Rel(_) => RelOp
    case Send(_, _) => SendOp
    case Recv(_, _) => RecvOp
  }

  /** available_t: availability of a resource record is binary. */
  datatype Avail = No | Yes

  function AvailCode(a: Avail): (n: int)
    ensures 0 <= n < 2
    ensures AvailOfCode(n) == Some(a)
  {
    match a
    case No => 0
    case Yes => 1
  }

  function AvailOfCode(n: int): (r: Option<Avail>)
    ensures r.Some? <==> 0 <= n < 2
  {
    if n == 0 then Some(No) else if n == 1 then Some(Yes) else None
  }

  /** resource_t, without its `next` link: the list it sits in is a `seq`. */
  datatype Resource = Resource(name: string, available: Avail)

  /** pcb_t. The instruction list never changes; `pc` is the position of
      `next_instruction` in it, and `pc >= |instrs|` stands for NULL. The
      held list keeps only the names of the copies a process owns, most
      recently acquired first. The `next` link is replaced by the queues,
      which are sequences of process ids. */
  datatype Pcb = Pcb(
    name: string,
    priority: Int32,
    state: State,
    instrs: seq<Instr>,
    pc: nat,
    held: seq<string>)

  /** The instruction `next_instruction` points at, or None for NULL. */
  function NextInstr(p: Pcb): (r: Option<Instr>)
    ensures r.Some? <==> p.pc < |p.instrs|
    ensures r.Some? ==> r.value == p.instrs[p.pc]
  {
    if p.pc < |p.instrs| then Some(p.instrs[p.pc]) else None
  }
}
