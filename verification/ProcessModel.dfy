/** The process layer as a state machine over values: what one kernel call does to the running
    process, the ready, waiting and zombie lists, the timers and the pool of process control
    blocks.  A process is named by its block in the static PCB buffer, so a freed block keeps its
    last contents and a stale pointer to it reads whatever lives there now. */
module ProcessModel {
  import opened Sequences

  const NULL := -1

  const DSOS_EWAIT := -5
  const DSOS_ESLEEP := -7

  const DSOS_CALL_PREEMPT := 1
  const DSOS_CALL_WAIT := 3
  const DSOS_CALL_EXIT := 4
  const DSOS_CALL_SPAWN := 5
  const DSOS_CALL_SLEEP := 6

  datatype Status = Invalid | Created | Running | Ready | Waiting | Suspended | Zombie

  /** The fields of a PCB that the process layer reads or writes.  `callNum`, `arg0`, `arg1` and
      `callResult` are the system call registers. */
  datatype Proc = Proc(pid: int, returnValue: int, status: Status, parent: int, children: seq<int>,
                       timer: int, callNum: int, arg0: int, arg1: int, callResult: int)

  datatype Timer = Timer(wake: int, pcb: int)

  /** `procs` is the PCB buffer, `free` its stack of free blocks, `ptrFree` the number of free
      PCBPtr blocks and `memory` the user words that a system call may write through a pointer. */
  datatype State = State(time: int, lastPid: int, init: int, running: int,
                         ready: seq<int>, waiting: seq<int>, zombie: seq<int>, timers: seq<Timer>,
                         free: seq<int>, ptrFree: nat, procs: seq<Proc>, memory: map<int, int>)
  {
    function P(b: int): Proc {
      if 0 <= b < |procs| then procs[b] else UnusedProc
    }

    function Set(b: int, p: Proc): (s: State)
      ensures forall c :: s.P(c) == if c == b && 0 <= b < |procs| then p else P(c)
    {
      if 0 <= b < |procs| then this.(procs := procs[b := p]) else this
    }

    function Me(): Proc { P(running) }
  }

  /** A block of the zero-initialised static buffer; 0 is both the null pointer and `Created`. */
  const UnusedProc := Proc(0, 0, Created, NULL, [], NULL, 0, 0, 0, 0)

  // ---------- entering and leaving a system call ----------

  /** The trap stores the call number and as many arguments as the call takes. */
  function Enter(s: State, num: int, args: seq<int>): State {
    var p := s.Me();
    s.Set(s.running, p.(callNum := num, arg0 := if |args| > 0 then args[0] else p.arg0,
                        arg1 := if |args| > 1 then args[1] else p.arg1))
  }

  function Return(s: State, value: int): State {
    s.Set(s.running, s.Me().(callResult := value))
  }

  // ---------- schedule ----------

  predicate Elapsed(s: State) {
    s.timers != [] && s.timers[0].wake <= s.time
  }

  /** Wakes the owner of the first timer and puts it behind the k processes already woken. */
  function WakeOne(s: State, k: nat): State
    requires Elapsed(s) && k <= |s.ready|
  {
    var b := s.timers[0].pcb;
    s.Set(b, s.P(b).(status := Ready, timer := NULL))
      .(waiting := Remove(s.waiting, b), ready := InsertAt(s.ready, k, b), timers := s.timers[1..])
  }

  function WakeElapsed(s: State, k: nat): State
    requires k <= |s.ready|
    decreases |s.timers|
  {
    if Elapsed(s) then WakeElapsed(WakeOne(s, k), k + 1) else s
  }

  /** Round robin: the head of the ready list replaces the running process, which goes last. */
  function Rotate(s: State): State {
    if s.ready == [] then s
    else
      var next := s.ready[0];
      var s1 := s.Set(s.running, s.Me().(status := Ready));
      s1.Set(next, s1.P(next).(status := Running)).(ready := s.ready[1..] + [s.running], running := next)
  }

  function Schedule(s: State): State
  {
    Rotate(WakeElapsed(s, 0))
  }

  // ---------- spawn ----------

  /** PCB_alloc resets these fields of the block; the system call registers keep their contents. */
  function Fresh(block: Proc, pid: int): Proc {
    block.(pid := pid, returnValue := 0, status := Invalid, parent := NULL, children := [], timer := NULL)
  }

  /** With an empty pool the source writes through a null pointer. */
  predicate CanSpawn(s: State) {
    s.free != [] && s.ptrFree > 0
  }

  function Spawn(s: State): State
    requires CanSpawn(s)
  {
    var b := s.free[0];
    var s1 := s.Set(b, Fresh(s.P(b), s.lastPid).(status := Ready, parent := s.running));
    s1.Set(s.running, s1.Me().(children := s1.Me().children + [b], callResult := s.lastPid))
      .(lastPid := s.lastPid + 1, free := s.free[1..], ptrFree := s.ptrFree - 1, ready := s.ready + [b])
  }

  // ---------- sleep ----------

  /** Behind every timer that is due no later. */
  function Slot(timers: seq<Timer>, wake: int): (k: nat)
    ensures k <= |timers|
  {
    if timers == [] || wake < timers[0].wake then 0 else 1 + Slot(timers[1..], wake)
  }

  function AddTimer(timers: seq<Timer>, t: Timer): seq<Timer> {
    InsertAt(timers, Slot(timers, t.wake), t)
  }

  function Block(s: State): State {
    s.Set(s.running, s.Me().(status := Waiting)).(waiting := s.waiting + [s.running])
  }

  /** The next process to run keeps the status it had in the ready list. */
  function Next(s: State): State {
    if s.ready == [] then s.(running := NULL) else s.(running := s.ready[0], ready := s.ready[1..])
  }

  /** The timer pool has as many blocks as the PCB pool. */
  function Sleep(s: State): State {
    if s.Me().timer != NULL || |s.timers| >= |s.procs| then Return(s, DSOS_ESLEEP)
    else Next(Block(s.(timers := AddTimer(s.timers, Timer(s.time + s.Me().arg0, s.running)))))
  }

  // ---------- wait ----------

  /** Where the scan of the children stops: the first match, or else the last child. */
  function Scan(s: State, children: seq<int>, pid: int): (k: nat)
    requires children != []
    ensures k < |children|
  {
    if |children| == 1 || Matches(s.P(children[0]), pid) then 0 else 1 + Scan(s, children[1..], pid)
  }

  predicate Matches(child: Proc, pid: int) {
    if pid == 0 then child.status == Zombie else child.pid == pid
  }

  function Store(memory: map<int, int>, address: int, value: int): map<int, int> {
    if address == 0 then memory else memory[address := value]
  }

  function Awaited(s: State): nat
    requires s.Me().children != []
  {
    Scan(s, s.Me().children, s.Me().arg0)
  }

  /** The k-th child, a zombie, leaves the system. */
  function Reap(s: State, k: nat): State
    requires k < |s.Me().children|
  {
    var c := s.Me().children[k];
    s.Set(s.running, s.Me().(children := RemoveAt(s.Me().children, k), callResult := s.P(c).pid))
      .(zombie := Remove(s.zombie, c), free := [c] + s.free, ptrFree := s.ptrFree + 1,
        memory := Store(s.memory, s.Me().arg1, s.P(c).returnValue))
  }

  predicate WaitBlocks(s: State) {
    s.Me().children != [] && s.P(s.Me().children[Awaited(s)]).status != Zombie
  }

  function Wait(s: State): State {
    if s.Me().children == [] then Return(s, DSOS_EWAIT)
    else if WaitBlocks(s) then Next(Block(s))
    else Reap(s, Awaited(s))
  }

  // ---------- exit ----------

  /** The children of the dying process go to init; their parent pointers do not change. */
  function Adopt(s: State): State {
    var s1 := s.Set(s.init, s.P(s.init).(children := s.P(s.init).children + s.Me().children));
    s1.Set(s.running, s1.Me().(children := []))
  }

  function Die(s: State): State {
    s.Set(s.running, s.Me().(returnValue := s.Me().arg0, status := Zombie))
      .(zombie := s.zombie + [s.running])
  }

  /** Process q is blocked in a wait that the end of a process with this pid satisfies. */
  predicate WaitsFor(q: Proc, pid: int) {
    q.status == Waiting && q.callNum == DSOS_CALL_WAIT && (q.arg0 == 0 || q.arg0 == pid)
  }

  predicate ParentWaits(s: State) {
    WaitsFor(s.P(s.Me().parent), s.Me().pid)
  }

  /** The position of the first child with this pid, or the length. */
  function FindPid(s: State, children: seq<int>, pid: int): (k: nat)
    ensures k <= |children|
  {
    if children == [] || s.P(children[0]).pid == pid then 0 else 1 + FindPid(s, children[1..], pid)
  }

  function DropTimers(timers: seq<Timer>, b: int): seq<Timer> {
    if timers == [] then []
    else (if timers[0].pcb == b then [] else [timers[0]]) + DropTimers(timers[1..], b)
  }

  /** The parent takes the exit value and the processor; the dead process leaves the system. */
  function HandOver(s: State): State
    requires HasChild(s, s.Me().parent, s.Me().pid)
  {
    var b, me := s.Me().parent, s.Me();
    var q := s.P(b);
    s.Set(b, q.(status := Running, children := RemoveAt(q.children, FindPid(s, q.children, me.pid)),
                callResult := me.pid))
      .(waiting := Remove(s.waiting, b), zombie := Remove(s.zombie, s.running), 
        timers := DropTimers(s.timers, s.running), memory := Store(s.memory, q.arg1, me.returnValue),
        free := [s.running] + s.free, running := b)
  }

  function Dispatch(s: State): State
    requires s.ready != []
  {
    var next := s.ready[0];
    s.Set(next, s.P(next).(status := Running)).(running := next, ready := s.ready[1..])
  }

  /** init must not exit.  A parent pointer left stale by reparenting may name a block that is now
      in use by a waiting process without such a child; the source then detaches a null item. */
  predicate CanExit(s: State) {
    && s.running != s.init && s.Me().parent != NULL
    && var d := Die(Adopt(s));
       if ParentWaits(d) then HasChild(d, d.Me().parent, d.Me().pid) else d.ready != []
  }

  predicate HasChild(s: State, b: int, pid: int) {
    FindPid(s, s.P(b).children, pid) < |s.P(b).children|
  }

  function Exit(s: State): State
    requires CanExit(s)
  {
    var d := Die(Adopt(s));
    if ParentWaits(d) then HandOver(d) else Dispatch(d)
  }

  // ---------- resource and message calls ----------

  /** What they do to the process layer: a result, the exit value (which a write to a full queue sets), and
      the PCBPtr blocks that they take for the slots of message queues. */
  function Answer(s: State, result: int, value: int, blocks: nat): State
    requires blocks <= s.ptrFree
  {
    Return(s.Set(s.running, s.Me().(returnValue := value)), result).(ptrFree := s.ptrFree - blocks)
  }

  // ---------- steps and runs ----------

  /** `Other` stands for the resource and message calls. */
  datatype Op = Tick | Preempt | SpawnCall(f: int, args: int) | SleepCall(cycles: int)
              | WaitCall(pid: int, result: int) | ExitCall(value: int)
              | OtherCall(num: int, callArgs: seq<int>, result: int, returnValue: int, blocks: nat)

  function Entered(s: State, op: Op): State {
    match op
    case Tick => s
    case Preempt => Enter(s, DSOS_CALL_PREEMPT, [])
    case SpawnCall(f, args) => Enter(s, DSOS_CALL_SPAWN, [f, args])
    case SleepCall(cycles) => Enter(s, DSOS_CALL_SLEEP, [cycles])
    case WaitCall(pid, result) => Enter(s, DSOS_CALL_WAIT, [pid, result])
    case ExitCall(value) => Enter(s, DSOS_CALL_EXIT, [value])
    case OtherCall(num, callArgs, _, _, _) => Enter(s, num, callArgs)
  }

  /** The call is made by a running process and does not make the source follow a null pointer. */
  predicate CanStep(s: State, op: Op) {
    && s.running != NULL
    && var e := Entered(s, op);
       match op
       case Tick => true
       case Preempt => true
       case SpawnCall(_, _) => CanSpawn(e)
       case SleepCall(_) => true
       case WaitCall(_, _) => WaitBlocks(e) ==> e.ready != []
       case ExitCall(_) => CanExit(e)
       case OtherCall(num, _, _, _, blocks) => DSOS_CALL_SLEEP < num && blocks <= e.ptrFree
  }

  function Advance(s: State): State {
    s.(time := s.time + 1)
  }

  function Step(s: State, op: Op): State
    requires CanStep(s, op)
  {
    var e := Entered(s, op);
    match op
    case Tick => Schedule(Advance(s))
    case Preempt => Schedule(e)
    case SpawnCall(_, _) => Spawn(e)
    case SleepCall(_) => Sleep(e)
    case WaitCall(_, _) => Wait(e)
    case ExitCall(_) => Exit(e)
    case OtherCall(_, _, result, value, blocks) => Answer(e, result, value, blocks)
  }

  predicate ValidRun(s: State, ops: seq<Op>)
    decreases |ops|
  {
    ops == [] || (CanStep(s, ops[0]) && ValidRun(Step(s, ops[0]), ops[1..]))
  }

  function After(s: State, ops: seq<Op>): State
    requires ValidRun(s, ops)
    decreases |ops|
  {
    if ops == [] then s else After(Step(s, ops[0]), ops[1..])
  }

  function Upto(n: nat): (s: seq<int>)
    ensures |s| == n && forall i :: 0 <= i < n ==> s[i] == i + 1
  {
    seq(n, i requires 0 <= i => i + 1)
  }

  /** The state in which the first process starts. */
  function Boot(n: nat): State
    requires n > 0
  {
    var procs := seq(n, _ => UnusedProc)[0 := Fresh(UnusedProc, 0).(status := Running)];
    State(0, 1, 0, 0, [], [], [], [], Upto(n - 1), n, procs, map[])
  }
}
