/** What a call or a tick changes, field by field and in plain values: the clock, the registers, the results that
    processes read, the user memory, the families and the lists. */
module ProcessEffects {
  import opened Sequences
  import opened ProcessModel
  import opened ProcessInvariant
  import opened ProcessSteps
  import opened ExitValues
  import opened Scheduling
  import opened Wakeups

  // ---------- what each function changes ----------

  /** Only the status and the timer pointer may differ. */
  ghost predicate SameRecord(p: Proc, q: Proc) {
    && SameIdentity(p, q) && q.returnValue == p.returnValue
    && q.callNum == p.callNum && q.arg0 == p.arg0 && q.arg1 == p.arg1 && q.callResult == p.callResult
  }

  ghost predicate SameGlobals(s: State, t: State) {
    && t.time == s.time && t.lastPid == s.lastPid && t.init == s.init && |t.procs| == |s.procs|
    && t.memory == s.memory
  }

  /** Scheduling and blocking: nothing but lists, timers, statuses and the running process. */
  ghost predicate OnlySwitches(s: State, t: State) {
    SameGlobals(s, t) && t.ptrFree == s.ptrFree && t.free == s.free && t.zombie == s.zombie
    && forall b :: SameRecord(s.P(b), t.P(b))
  }

  lemma SwitchesTwice(s: State, t: State, u: State)
    requires OnlySwitches(s, t) && OnlySwitches(t, u)
    ensures OnlySwitches(s, u)
  {
    forall b ensures SameRecord(s.P(b), u.P(b)) {
      assert SameRecord(s.P(b), t.P(b)) && SameRecord(t.P(b), u.P(b));
    }
  }

  lemma {:induction false} WakeElapsedSwitches(s: State, k: nat)
    requires k <= |s.ready|
    ensures OnlySwitches(s, WakeElapsed(s, k))
    decreases |s.timers|
  {
    if Elapsed(s) {
      var u := WakeOne(s, k);
      WakeElapsedSwitches(u, k + 1);
      SwitchesTwice(s, u, WakeElapsed(u, k + 1));
    }
  }

  lemma RotateSwitches(s: State)
    ensures OnlySwitches(s, Rotate(s))
  {
  }

  lemma ScheduleSwitches(s: State)
    ensures OnlySwitches(s, Schedule(s))
  {
    hide OnlySwitches, WakeElapsed, Rotate;
    WakeElapsedSwitches(s, 0);
    RotateSwitches(WakeElapsed(s, 0));
    SwitchesTwice(s, WakeElapsed(s, 0), Rotate(WakeElapsed(s, 0)));
  }

  lemma BlockSwitches(s: State, timers: seq<Timer>)
    ensures OnlySwitches(s, Next(Block(s.(timers := timers))))
  {
  }

  lemma SleepSwitches(s: State)
    requires Inv(s) && s.running != NULL
    ensures OnlySwitches(s, Sleep(s))
  {
    TimerPoolSuffices(s);
    RunnerIsLive(s);
    hide AddTimer, Block, Next, Inv, OnlySwitches;
    BlockSwitches(s, AddTimer(s.timers, Timer(s.time + s.Me().arg0, s.running)));
  }

  lemma RunnerIsLive(s: State)
    requires Inv(s) && s.running != NULL
    ensures 0 <= s.running < |s.procs| && s.Me().timer == NULL && 0 <= s.init < |s.procs|
    ensures s.running !in s.ready && s.running !in s.waiting && s.running !in s.zombie && s.running !in s.free
  {
    Placed(s);
    assert InOnePlace(s, s.running);
  }

  /** A new process in block b. */
  ghost predicate Born(s: State, t: State, b: int) {
    && t.P(b) == s.P(b).(pid := s.lastPid, returnValue := 0, status := Ready, parent := s.running, children := [],
                         timer := NULL)
    && t.Me() == s.Me().(children := s.Me().children + [b], callResult := s.lastPid)
    && (forall x :: x != b && x != s.running ==> t.P(x) == s.P(x))
    && t.time == s.time && t.lastPid == s.lastPid + 1 && t.init == s.init && |t.procs| == |s.procs|
    && t.memory == s.memory && t.running == s.running
  }

  lemma SpawnBorn(s: State)
    requires Inv(s) && s.running != NULL && CanSpawn(s)
    ensures Born(s, Spawn(s), s.free[0]) && s.free[0] != s.running
  {
    Placed(s);
    assert InOnePlace(s, s.running) && InOnePlace(s, s.free[0]);
  }

  /** The running process is told this result; nothing else changes. */
  ghost predicate Told(s: State, t: State, result: int) {
    && SameGlobals(s, t) && t.running == s.running
    && t.Me() == s.Me().(callResult := result)
    && (forall x :: x != s.running ==> t.P(x) == s.P(x))
  }

  lemma ReturnTold(s: State, result: int)
    requires Inv(s) && s.running != NULL
    ensures Told(s, Return(s, result), result)
  {
    RunnerIsLive(s);
  }

  /** One word is written, unless the address is null. */
  ghost predicate Stored(m: map<int, int>, r: map<int, int>, address: int, value: int) {
    && (address == 0 ==> r == m)
    && (address != 0 ==> address in r && r[address] == value)
    && (forall x :: x != address ==> (x in r <==> x in m) && (x in r ==> r[x] == m[x]))
  }

  /** Process p is told the end of its k-th child, here c. */
  ghost predicate Learns(s: State, t: State, p: int, k: nat, c: Proc) {
    && k < |s.P(p).children|
    && t.P(p).children == s.P(p).children[..k] + s.P(p).children[k + 1..] && t.P(p).callResult == c.pid
    && Stored(s.memory, t.memory, s.P(p).arg1, c.returnValue)
    && SameButStatus(s.P(p), t.P(p))
    && (forall x :: x != p ==> SameRecord(s.P(x), t.P(x)))
    && t.time == s.time && t.lastPid == s.lastPid && t.init == s.init && |t.procs| == |s.procs| && t.running == p
  }

  ghost predicate SameButStatus(p: Proc, q: Proc) {
    && q.pid == p.pid && q.parent == p.parent && q.returnValue == p.returnValue
    && q.callNum == p.callNum && q.arg0 == p.arg0 && q.arg1 == p.arg1
  }

  lemma StoreStored(memory: map<int, int>, address: int, value: int)
    ensures Stored(memory, Store(memory, address, value), address, value)
  {
  }

  lemma ReapLearns(s: State, k: nat)
    requires Inv(s) && s.running != NULL && k < |s.Me().children|
    ensures Learns(s, Reap(s, k), s.running, k, s.P(s.Me().children[k]))
  {
    RunnerIsLive(s);
    StoreStored(s.memory, s.Me().arg1, s.P(s.Me().children[k]).returnValue);
    hide Inv, Remove, Store, Stored;
  }

  lemma HandOverLearns(d: State, k: nat)
    requires HasChild(d, d.Me().parent, d.Me().pid) && 0 <= d.Me().parent < |d.procs|
    requires k == FindPid(d, d.P(d.Me().parent).children, d.Me().pid)
    ensures Learns(d, HandOver(d), d.Me().parent, k, d.Me())
  {
    StoreStored(d.memory, d.P(d.Me().parent).arg1, d.Me().returnValue);
    hide Remove, DropTimers, FindPid, Store, Stored;
  }

  /** The process r ends with a value, and its children go to init. */
  ghost predicate Dies(s: State, d: State, r: int, value: int) {
    && SameGlobals(s, d) && d.running == r
    && d.P(r) == s.P(r).(returnValue := value, status := Zombie, children := [])
    && d.P(s.init) == s.P(s.init).(children := s.P(s.init).children + s.P(r).children)
    && (forall x :: x != r && x != s.init ==> d.P(x) == s.P(x))
  }

  lemma DieDies(s: State)
    requires Inv(s) && s.running != NULL && s.running != s.init
    ensures Dies(s, Die(Adopt(s)), s.running, s.Me().arg0)
  {
    RunnerIsLive(s);
    hide Inv;
  }

  lemma DispatchSwitches(d: State)
    requires d.ready != []
    ensures SameGlobals(d, Dispatch(d)) && forall b :: SameRecord(d.P(b), Dispatch(d).P(b))
  {
  }

  // ---------- entering a call ----------

  /** Only the registers of the caller change, and those to the number and arguments of the call. */
  ghost predicate Loaded(s: State, e: State, num: int, args: seq<int>) {
    && SameGlobals(s, e) && e.ptrFree == s.ptrFree && e.free == s.free && e.zombie == s.zombie
    && e.running == s.running && e.ready == s.ready && e.waiting == s.waiting && e.timers == s.timers
    && e.Me() == s.Me().(callNum := num, arg0 := if |args| > 0 then args[0] else s.Me().arg0,
                         arg1 := if |args| > 1 then args[1] else s.Me().arg1)
    && (forall x :: x != s.running ==> e.P(x) == s.P(x))
  }

  function Number(op: Op): int
    requires !op.Tick?
  {
    match op
    case Preempt => 1
    case WaitCall(_, _) => 3
    case ExitCall(_) => 4
    case SpawnCall(_, _) => 5
    case SleepCall(_) => 6
    case OtherCall(num, _, _, _, _) => num
  }

  function Arguments(op: Op): seq<int>
    requires !op.Tick?
  {
    match op
    case Preempt => []
    case WaitCall(pid, result) => [pid, result]
    case ExitCall(value) => [value]
    case SpawnCall(f, args) => [f, args]
    case SleepCall(cycles) => [cycles]
    case OtherCall(_, args, _, _, _) => args
  }

  lemma EnteredLoaded(s: State, op: Op)
    requires Inv(s) && s.running != NULL && !op.Tick?
    ensures Loaded(s, Entered(s, op), Number(op), Arguments(op))
    ensures Inv(Entered(s, op))
  {
    RunnerIsLive(s);
    EnteredKeepsInv(s, op);
    hide Inv;
  }

  // ---------- which processes learn of an end ----------

  /** Where the scan of the children stops: the first that matches, or else the last. */
  ghost predicate Chosen(s: State, pid: int, k: nat) {
    var children := s.Me().children;
    && k < |children|
    && (forall i :: 0 <= i < k ==> !Fits(s.P(children[i]), pid))
    && (k + 1 < |children| ==> Fits(s.P(children[k]), pid))
  }

  ghost predicate Fits(child: Proc, pid: int) {
    if pid == 0 then child.status == Zombie else child.pid == pid
  }

  lemma ScanChosen(s: State, pid: int)
    requires s.Me().children != [] && s.Me().arg0 == pid
    ensures Chosen(s, pid, Awaited(s))
  {
    ScanStops(s, s.Me().children, pid);
  }

  lemma ChosenOnce(s: State, pid: int, k: nat, m: nat)
    requires Chosen(s, pid, k) && Chosen(s, pid, m)
    ensures k == m
  {
  }

  lemma LoadedChosen(s: State, e: State, pid: int, k: nat, num: int, args: seq<int>)
    requires Loaded(s, e, num, args) && Chosen(e, pid, k)
    ensures Chosen(s, pid, k)
  {
  }

  /** The first child that fits decides, or else the last: if it is dead, its end is reported to the caller; if
      not, or without children, nothing is reported. */
  lemma WaitDelivers(s: State, pid: int, result: int)
    requires Inv(s) && CanStep(s, WaitCall(pid, result))
    ensures s.Me().children == [] ==> Delivered(s, WaitCall(pid, result)) == []
    ensures s.Me().children != [] ==> exists k: nat :: Chosen(s, pid, k)
    ensures forall k: nat :: Chosen(s, pid, k) ==>
              (var c := s.P(s.Me().children[k]);
               Delivered(s, WaitCall(pid, result)) ==
                 if c.status == Zombie then [Delivery(s.running, c.pid, c.returnValue)] else [])
  {
    var op := WaitCall(pid, result);
    var e := Entered(s, op);
    EnteredLoaded(s, op);
    if s.Me().children != [] {
      ScanChosen(e, pid);
      LoadedChosen(s, e, pid, Awaited(e), 3, [pid, result]);
      forall k: nat | Chosen(s, pid, k) ensures k == Awaited(e) {
        ChosenOnce(s, pid, k, Awaited(e));
      }
    }
    hide Inv, Awaited, Chosen, Entered;
  }

  /** The parent is blocked in a wait for any child or for this pid. */
  ghost predicate Expects(parent: Proc, pid: int) {
    parent.status == Waiting && parent.callNum == 3 && (parent.arg0 == 0 || parent.arg0 == pid)
  }

  lemma ExitReports(s: State, value: int)
    requires CanStep(s, ExitCall(value))
    ensures var e := Entered(s, ExitCall(value));
            Delivered(s, ExitCall(value)) ==
              if ParentWaits(Die(Adopt(e))) then [Delivery(e.Me().parent, e.Me().pid, value)] else []
  {
    hide Die, Adopt, ParentWaits, CanExit;
  }

  /** The parent of the dying process expects its end before it dies if and only if it does after. */
  lemma ParentExpects(s: State)
    requires Inv(s) && s.running != NULL && s.running != s.init
    ensures ParentWaits(Die(Adopt(s))) <==> Expects(s.P(s.Me().parent), s.Me().pid)
  {
    assert s.Me().status in {Running, Ready};
    DieDies(s);
    hide Inv, Die, Adopt;
  }

  /** An exit reports the end to the process that the parent pointer names, if that process expects it. */
  lemma ExitDelivers(s: State, value: int)
    requires Inv(s) && CanStep(s, ExitCall(value))
    ensures Delivered(s, ExitCall(value)) ==
              if Expects(s.P(s.Me().parent), s.Me().pid) then [Delivery(s.Me().parent, s.Me().pid, value)] else []
  {
    var op := ExitCall(value);
    hide Inv, Step, CanStep, Die, Adopt, Entered, ParentWaits, Delivered, CanExit, Loaded, Expects;
    CallIs(s, op);
    EnteredLoaded(s, op);
    ExitReports(s, value);
    NotInit(Entered(s, op));
    SameParent(s, Entered(s, op), op);
    ParentExpects(Entered(s, op));
  }

  lemma SameParent(s: State, e: State, op: Op)
    requires op.ExitCall? && Loaded(s, e, Number(op), Arguments(op)) && Inv(s) && s.running != NULL
    ensures e.Me().parent == s.Me().parent && e.Me().pid == s.Me().pid && e.running == s.running
    ensures Expects(e.P(s.Me().parent), s.Me().pid) <==> Expects(s.P(s.Me().parent), s.Me().pid)
  {
    assert s.Me().status in {Running, Ready};
    hide Inv;
  }

  lemma NotInit(s: State)
    requires CanExit(s)
    ensures s.running != s.init
  {
  }

  // ---------- what each call amounts to ----------

  lemma ScheduleOutcome(s: State, op: Op)
    requires Inv(s) && CanStep(s, op) && IsSchedule(op)
    ensures OnlySwitches(if op.Tick? then s.(time := s.time + 1) else Entered(s, op), Step(s, op))
    ensures Delivered(s, op) == []
  {
    ScheduleSwitches(s.(time := s.time + 1));
    ScheduleSwitches(Entered(s, op));
    hide Inv, Schedule, OnlySwitches, Entered;
  }

  lemma SpawnOutcome(s: State, op: Op)
    requires Inv(s) && CanStep(s, op) && op.SpawnCall?
    ensures s.free != [] && Born(Entered(s, op), Step(s, op), s.free[0]) && s.free[0] != s.running
    ensures Delivered(s, op) == []
  {
    EnteredLoaded(s, op);
    CallIs(s, op);
    NothingDelivered(s, op);
    SpawnBorn(Entered(s, op));
    hide Inv, Step, Entered, Spawn, Born, Delivered;
  }

  lemma SleepOutcome(s: State, op: Op)
    requires Inv(s) && CanStep(s, op) && op.SleepCall?
    ensures OnlySwitches(Entered(s, op), Step(s, op)) && Delivered(s, op) == []
  {
    EnteredLoaded(s, op);
    CallIs(s, op);
    NothingDelivered(s, op);
    SleepSwitches(Entered(s, op));
    hide Inv, Step, Entered, Sleep, OnlySwitches, Delivered;
  }

  ghost predicate Answered(s: State, t: State, result: int, value: int) {
    && SameGlobals(s, t) && t.running == s.running
    && t.Me() == s.Me().(callResult := result, returnValue := value)
    && (forall x :: x != s.running ==> t.P(x) == s.P(x))
  }

  lemma AnswerAnswered(s: State, result: int, value: int, blocks: nat)
    requires Inv(s) && s.running != NULL && blocks <= s.ptrFree
    ensures Answered(s, Answer(s, result, value, blocks), result, value)
  {
    RunnerIsLive(s);
    hide Inv;
  }

  lemma OtherOutcome(s: State, op: Op)
    requires Inv(s) && CanStep(s, op) && op.OtherCall?
    ensures Answered(Entered(s, op), Step(s, op), op.result, op.returnValue) && Delivered(s, op) == []
  {
    EnteredLoaded(s, op);
    CallIs(s, op);
    NothingDelivered(s, op);
    AnswerAnswered(Entered(s, op), op.result, op.returnValue, op.blocks);
    hide Inv, Step, Entered, Answer, Answered, Delivered;
  }

  lemma WaitReports(s: State, op: Op)
    requires CanStep(s, op) && op.WaitCall?
    ensures var e := Entered(s, op);
            Delivered(s, op) == if Reaps(e) then
                var c := e.P(e.Me().children[Awaited(e)]);
                [Delivery(e.running, c.pid, c.returnValue)]
              else []
  {
  }

  lemma WaitIs(s: State)
    ensures if s.Me().children == [] then Wait(s) == Return(s, -5)
            else if WaitBlocks(s) then Wait(s) == Next(Block(s.(timers := s.timers)))
            else Wait(s) == Reap(s, Awaited(s))
  {
    assert s.(timers := s.timers) == s;
  }

  /** The three outcomes of a wait: an error, a report, or a switch. */
  lemma WaitOutcome(s: State, op: Op)
    requires Inv(s) && CanStep(s, op) && op.WaitCall?
    ensures var e, t := Entered(s, op), Step(s, op);
            if s.Me().children == [] then Told(e, t, -5) && Delivered(s, op) == []
            else if Delivered(s, op) == [] then OnlySwitches(e, t)
            else
              exists k: nat {:trigger e.Me().children[k]} ::
                && k < |e.Me().children| && Learns(e, t, s.running, k, e.P(e.Me().children[k]))
                && var c := e.P(e.Me().children[k]);
                   Delivered(s, op) == [Delivery(s.running, c.pid, c.returnValue)]
  {
    var e := Entered(s, op);
    EnteredLoaded(s, op);
    CallIs(s, op);
    WaitReports(s, op);
    WaitIs(e);
    hide Inv, Step, Entered, Wait, OnlySwitches, Told, Delivered, WaitBlocks, Awaited, Learns, Block, Next, Return,
      Reap;
    if s.Me().children == [] {
      ReturnTold(e, -5);
    } else if WaitBlocks(e) {
      BlockSwitches(e, e.timers);
    } else {
      ReapLearns(e, Awaited(e));
    }
  }

  /** The two outcomes of an exit: a report to the parent that expects it, or a switch. */
  lemma ExitOutcome(s: State, op: Op) returns (d: State, k: nat)
    requires Inv(s) && CanStep(s, op) && op.ExitCall?
    ensures Dies(Entered(s, op), d, s.running, op.value) && s.running != s.init
    ensures Delivered(s, op) == [] ==>
              SameGlobals(d, Step(s, op)) && forall b :: SameRecord(d.P(b), Step(s, op).P(b))
    ensures Delivered(s, op) != [] ==>
              && Learns(d, Step(s, op), s.Me().parent, k, d.Me()) && d.P(s.Me().parent).children[k] == s.running
              && Delivered(s, op) == [Delivery(s.Me().parent, s.Me().pid, op.value)] && s.Me().parent != s.running
  {
    var e := Entered(s, op);
    EnteredLoaded(s, op);
    CallIs(s, op);
    NotInit(e);
    ExitReports(s, op.value);
    d, k := ExitParts(e);
    hide Inv, Step, Entered, Delivered, CanExit, Exit, Die, Adopt, ParentWaits, Learns, Dies, SameGlobals, SameRecord;
  }

  lemma ExitParts(s: State) returns (d: State, k: nat)
    requires Inv(s) && s.running != NULL && CanExit(s)
    ensures d == Die(Adopt(s)) && Dies(s, d, s.running, s.Me().arg0)
    ensures !ParentWaits(d) ==> SameGlobals(d, Exit(s)) && forall b :: SameRecord(d.P(b), Exit(s).P(b))
    ensures ParentWaits(d) ==>
              && Learns(d, Exit(s), s.Me().parent, k, d.Me()) && d.P(s.Me().parent).children[k] == s.running
              && s.Me().parent != s.running
  {
    d := Die(Adopt(s));
    DieDies(s);
    if ParentWaits(d) {
      DieFamily(s);
      ParentIsListed(s, d);
      Placed(s);
      assert InOnePlace(s, s.Me().parent) && InOnePlace(s, s.running);
      k := FindPid(d, d.P(d.Me().parent).children, d.Me().pid);
      FindsItself(d, s.Me().parent);
      hide Inv, Die, Adopt, HandOver, Dispatch, Learns, FindPid, Dies;
      HandOverLearns(d, k);
    } else {
      k := 0;
      hide Inv, Die, Adopt, HandOver, Dispatch, Learns, FindPid;
      DispatchSwitches(d);
    }
  }

  // ---------- every call and tick ----------

  ghost predicate Registers(p: Proc, num: int, arg0: int, arg1: int) {
    p.callNum == num && p.arg0 == arg0 && p.arg1 == arg1
  }

  /** The registers of the caller hold the number and the arguments of its call; those of others stay. */
  ghost predicate RegistersAfter(s: State, op: Op, b: int, q: Proc) {
    var p := s.P(b);
    if b != s.running then Registers(q, p.callNum, p.arg0, p.arg1)
    else
      match op
      case Tick => Registers(q, p.callNum, p.arg0, p.arg1)
      case Preempt => Registers(q, 1, p.arg0, p.arg1)
      case WaitCall(pid, result) => Registers(q, 3, pid, result)
      case ExitCall(value) => Registers(q, 4, value, p.arg1)
      case SpawnCall(f, args) => Registers(q, 5, f, args)
      case SleepCall(cycles) => Registers(q, 6, cycles, p.arg1)
      case OtherCall(num, args, _, _, _) =>
        Registers(q, num, if |args| > 0 then args[0] else p.arg0, if |args| > 1 then args[1] else p.arg1)
  }

  /** The result register: the receiver of a report finds the pid that ended, the caller of spawn the new pid, the
      caller of wait without children -5, the caller of another call its result.  No other register changes. */
  ghost predicate ResultAfter(s: State, op: Op, told: seq<Delivery>, b: int, q: Proc) {
    q.callResult ==
      if told != [] && b == told[0].parent then told[0].pid
      else if b != s.running then s.P(b).callResult
      else if op.SpawnCall? then s.lastPid
      else if op.WaitCall? && s.Me().children == [] then -5
      else if op.OtherCall? then op.result
      else s.P(b).callResult
  }

  /** The exit value: set by the exit or another call of its process, cleared at the birth of one. */
  ghost predicate ExitValueAfter(s: State, op: Op, b: int, q: Proc) {
    q.returnValue ==
      if op.ExitCall? && b == s.running then op.value
      else if op.OtherCall? && b == s.running then op.returnValue
      else if op.SpawnCall? && s.free != [] && b == s.free[0] then 0
      else s.P(b).returnValue
  }

  /** Pid and parent pointer are set once, at the birth of a process. */
  ghost predicate IdentityAfter(s: State, op: Op, b: int, q: Proc) {
    if op.SpawnCall? && s.free != [] && b == s.free[0] then q.pid == s.lastPid && q.parent == s.running
    else q.pid == s.P(b).pid && q.parent == s.P(b).parent
  }

  /** The children: a spawn appends the new one, an exit appends those of its caller to those of init, and the
      receiver of a report loses the child that ended. */
  ghost predicate ChildrenAfter(s: State, op: Op, told: seq<Delivery>, b: int, q: Proc) {
    var children := s.P(b).children;
    var all := if op.ExitCall? && b == s.running then []
               else if op.ExitCall? && b == s.init then children + s.Me().children
               else if op.SpawnCall? && s.free != [] && b == s.free[0] then []
               else if op.SpawnCall? && s.free != [] && b == s.running then children + [s.free[0]]
               else children;
    if told != [] && b == told[0].parent then
      exists k :: 0 <= k < |all| && s.P(all[k]).pid == told[0].pid && q.children == all[..k] + all[k + 1..]
    else q.children == all
  }

  ghost predicate RecordAfter(s: State, op: Op, told: seq<Delivery>, b: int, q: Proc) {
    RegistersAfter(s, op, b, q) && ResultAfter(s, op, told, b, q) && ExitValueAfter(s, op, b, q)
    && IdentityAfter(s, op, b, q) && ChildrenAfter(s, op, told, b, q)
  }

  /** Memory changes only when an end is reported, and then only at the address that the receiver passed to its
      wait, which afterwards holds the exit value. */
  ghost predicate MemoryAfter(s: State, op: Op, told: seq<Delivery>, m: map<int, int>) {
    if told == [] then m == s.memory
    else
      var d := told[0];
      var address := if op.WaitCall? then op.result else s.P(d.parent).arg1;
      && (address == 0 ==> m == s.memory)
      && (address != 0 ==> address in m && m[address] == d.value)
      && (forall x :: x != address ==> (x in m <==> x in s.memory) && (x in m ==> m[x] == s.memory[x]))
  }

  lemma TickEffect(s: State, op: Op, b: int)
    requires Inv(s) && CanStep(s, op) && op.Tick?
    ensures RecordAfter(s, op, Delivered(s, op), b, Step(s, op).P(b))
    ensures MemoryAfter(s, op, Delivered(s, op), Step(s, op).memory)
  {
    ScheduleOutcome(s, op);
    hide Inv, CanStep, Step, Entered, Delivered;
    assert SameRecord(s.(time := s.time + 1).P(b), Step(s, op).P(b));
  }

  lemma SwitchRecord(s: State, e: State, t: State, op: Op, b: int)
    requires op.Preempt? || op.SleepCall? || (op.WaitCall? && s.Me().children != [])
    requires Loaded(s, e, Number(op), Arguments(op))
    requires OnlySwitches(e, t)
    ensures RecordAfter(s, op, [], b, t.P(b)) && MemoryAfter(s, op, [], t.memory)
  {
    assert SameRecord(e.P(b), t.P(b));
  }

  lemma SwitchEffect(s: State, op: Op, b: int)
    requires Inv(s) && CanStep(s, op) && (op.Preempt? || op.SleepCall?)
    ensures RecordAfter(s, op, Delivered(s, op), b, Step(s, op).P(b))
    ensures MemoryAfter(s, op, Delivered(s, op), Step(s, op).memory)
  {
    CallIs(s, op);
    EnteredLoaded(s, op);
    if op.Preempt? { ScheduleOutcome(s, op); } else { SleepOutcome(s, op); }
    hide Inv, CanStep, Step, Entered, Delivered, Loaded, RecordAfter, MemoryAfter, OnlySwitches, Born, Answered,
      Told, Learns, Dies, SameGlobals;
    SwitchRecord(s, Entered(s, op), Step(s, op), op, b);
  }

  lemma SpawnRecord(s: State, e: State, t: State, op: Op, b: int)
    requires op.SpawnCall? && s.free != [] && s.free[0] != s.running
    requires Loaded(s, e, Number(op), Arguments(op))
    requires Born(e, t, s.free[0])
    ensures RecordAfter(s, op, [], b, t.P(b)) && MemoryAfter(s, op, [], t.memory)
  {
  }

  lemma SpawnEffect(s: State, op: Op, b: int)
    requires Inv(s) && CanStep(s, op) && op.SpawnCall?
    ensures RecordAfter(s, op, Delivered(s, op), b, Step(s, op).P(b))
    ensures MemoryAfter(s, op, Delivered(s, op), Step(s, op).memory)
  {
    CallIs(s, op);
    EnteredLoaded(s, op);
    SpawnOutcome(s, op);
    hide Inv, CanStep, Step, Entered, Delivered, Loaded, RecordAfter, MemoryAfter, OnlySwitches, Born, Answered,
      Told, Learns, Dies, SameGlobals;
    SpawnRecord(s, Entered(s, op), Step(s, op), op, b);
  }

  lemma OtherRecord(s: State, e: State, t: State, op: Op, b: int)
    requires op.OtherCall?
    requires Loaded(s, e, Number(op), Arguments(op))
    requires Answered(e, t, op.result, op.returnValue)
    ensures RecordAfter(s, op, [], b, t.P(b)) && MemoryAfter(s, op, [], t.memory)
  {
  }

  lemma OtherEffect(s: State, op: Op, b: int)
    requires Inv(s) && CanStep(s, op) && op.OtherCall?
    ensures RecordAfter(s, op, Delivered(s, op), b, Step(s, op).P(b))
    ensures MemoryAfter(s, op, Delivered(s, op), Step(s, op).memory)
  {
    CallIs(s, op);
    EnteredLoaded(s, op);
    OtherOutcome(s, op);
    hide Inv, CanStep, Step, Entered, Delivered, Loaded, RecordAfter, MemoryAfter, OnlySwitches, Born, Answered,
      Told, Learns, Dies, SameGlobals;
    OtherRecord(s, Entered(s, op), Step(s, op), op, b);
  }

  lemma ErrorRecord(s: State, e: State, t: State, op: Op, b: int)
    requires op.WaitCall? && s.Me().children == []
    requires Loaded(s, e, Number(op), Arguments(op))
    requires Told(e, t, -5)
    ensures RecordAfter(s, op, [], b, t.P(b)) && MemoryAfter(s, op, [], t.memory)
  {
  }

  lemma ReapRecord(s: State, e: State, t: State, op: Op, k: nat, c: Proc, b: int)
    requires op.WaitCall?
    requires Loaded(s, e, Number(op), Arguments(op))
    requires s.Me().children != [] && Learns(e, t, s.running, k, c) && c == e.P(e.Me().children[k])
    ensures RecordAfter(s, op, [Delivery(s.running, c.pid, c.returnValue)], b, t.P(b))
    ensures MemoryAfter(s, op, [Delivery(s.running, c.pid, c.returnValue)], t.memory)
  {
    assert b != s.running ==> SameRecord(e.P(b), t.P(b));
  }

  lemma WaitEffect(s: State, op: Op, b: int)
    requires Inv(s) && CanStep(s, op) && op.WaitCall?
    ensures RecordAfter(s, op, Delivered(s, op), b, Step(s, op).P(b))
    ensures MemoryAfter(s, op, Delivered(s, op), Step(s, op).memory)
  {
    CallIs(s, op);
    EnteredLoaded(s, op);
    WaitOutcome(s, op);
    var e, t := Entered(s, op), Step(s, op);
    hide Inv, CanStep, Step, Entered, Delivered, Loaded, RecordAfter, MemoryAfter, OnlySwitches, Born, Answered,
      Told, Learns, Dies, SameGlobals;
    if s.Me().children == [] {
      ErrorRecord(s, e, t, op, b);
    } else if Delivered(s, op) == [] {
      SwitchRecord(s, e, t, op, b);
    } else {
      var k: nat :| k < |e.Me().children| && Learns(e, t, s.running, k, e.P(e.Me().children[k]))
        && Delivered(s, op) == [Delivery(s.running, e.P(e.Me().children[k]).pid, e.P(e.Me().children[k]).returnValue)];
      ReapRecord(s, e, t, op, k, e.P(e.Me().children[k]), b);
    }
  }

  lemma EndRecord(s: State, e: State, t: State, op: Op, d: State, b: int)
    requires op.ExitCall? && s.running != s.init
    requires Loaded(s, e, Number(op), Arguments(op))
    requires Dies(e, d, s.running, op.value) && SameGlobals(d, t) && forall x :: SameRecord(d.P(x), t.P(x))
    ensures RecordAfter(s, op, [], b, t.P(b)) && MemoryAfter(s, op, [], t.memory)
  {
    assert SameRecord(d.P(b), t.P(b));
  }

  lemma HandOverRecord(s: State, e: State, t: State, op: Op, d: State, k: nat, p: int, b: int)
    requires op.ExitCall? && s.running != s.init
    requires Loaded(s, e, Number(op), Arguments(op))
    requires Dies(e, d, s.running, op.value) && Learns(d, t, p, k, d.Me())
    requires p == s.Me().parent != s.running && d.P(p).children[k] == s.running
    ensures RecordAfter(s, op, [Delivery(p, s.Me().pid, op.value)], b, t.P(b))
    ensures MemoryAfter(s, op, [Delivery(p, s.Me().pid, op.value)], t.memory)
  {
    assert b != p ==> SameRecord(d.P(b), t.P(b));
  }

  lemma ExitEffect(s: State, op: Op, b: int)
    requires Inv(s) && CanStep(s, op) && op.ExitCall?
    ensures RecordAfter(s, op, Delivered(s, op), b, Step(s, op).P(b))
    ensures MemoryAfter(s, op, Delivered(s, op), Step(s, op).memory)
  {
    CallIs(s, op);
    EnteredLoaded(s, op);
    var d, k := ExitOutcome(s, op);
    var e, t := Entered(s, op), Step(s, op);
    hide Inv, CanStep, Step, Entered, Delivered, Loaded, RecordAfter, MemoryAfter, OnlySwitches, Born, Answered,
      Told, Learns, Dies, SameGlobals;
    if Delivered(s, op) == [] {
      EndRecord(s, e, t, op, d, b);
    } else {
      HandOverRecord(s, e, t, op, d, k, s.Me().parent, b);
    }
  }

  /** The record of every process after every call or tick. */
  lemma StepRecord(s: State, op: Op, b: int)
    requires Inv(s) && CanStep(s, op)
    ensures var q := Step(s, op).P(b);
            && RegistersAfter(s, op, b, q) && ResultAfter(s, op, Delivered(s, op), b, q)
            && ExitValueAfter(s, op, b, q) && IdentityAfter(s, op, b, q)
            && ChildrenAfter(s, op, Delivered(s, op), b, q)
    ensures MemoryAfter(s, op, Delivered(s, op), Step(s, op).memory)
  {
    hide Inv, CanStep, Step, Entered, Delivered, RegistersAfter, ResultAfter, ExitValueAfter, IdentityAfter,
      ChildrenAfter, MemoryAfter;
    match op
    case Tick => TickEffect(s, op, b);
    case Preempt => SwitchEffect(s, op, b);
    case SleepCall(_) => SwitchEffect(s, op, b);
    case SpawnCall(_, _) => SpawnEffect(s, op, b);
    case WaitCall(_, _) => WaitEffect(s, op, b);
    case ExitCall(_) => ExitEffect(s, op, b);
    case OtherCall(_, _, _, _, _) => OtherEffect(s, op, b);
  }

  /** A tick advances the time by one, a spawn the next pid; nothing else touches either. */
  lemma StepClock(s: State, op: Op)
    requires Inv(s) && CanStep(s, op)
    ensures Step(s, op).time == s.time + (if op.Tick? then 1 else 0)
    ensures Step(s, op).lastPid == s.lastPid + (if op.SpawnCall? then 1 else 0)
    ensures Step(s, op).init == s.init && |Step(s, op).procs| == |s.procs|
  {
    if !op.Tick? { CallIs(s, op); EnteredLoaded(s, op); }
    hide Inv, CanStep, Step, Entered, Delivered;
    if IsSchedule(op) {
      ScheduleOutcome(s, op);
    } else if op.SpawnCall? {
      SpawnOutcome(s, op);
    } else if op.SleepCall? {
      SleepOutcome(s, op);
    } else if op.WaitCall? {
      WaitOutcome(s, op);
    } else if op.ExitCall? {
      var d, k := ExitOutcome(s, op);
    } else {
      OtherOutcome(s, op);
    }
  }

  // ---------- the lists ----------

  /** The list without one occurrence of x. */
  ghost predicate Without(list: seq<int>, x: int, r: seq<int>) {
    exists k :: 0 <= k < |list| && list[k] == x && r == list[..k] + list[k + 1..]
  }

  lemma RemovedWithout(list: seq<int>, x: int)
    requires x in list
    ensures Without(list, x, Remove(list, x))
  {
  }

  lemma WithoutKeeps(list: seq<int>, x: int, r: seq<int>, b: int)
    requires Without(list, x, r) && b in list && b != x
    ensures b in r
  {
    var k :| 0 <= k < |list| && list[k] == x && r == list[..k] + list[k + 1..];
    var i :| 0 <= i < |list| && list[i] == b;
    assert r[if i < k then i else i - 1] == b;
  }

  ghost predicate SameWaiting(s: State, t: State) {
    t.waiting == s.waiting && t.timers == s.timers
  }

  ghost predicate SamePools(s: State, t: State) {
    t.free == s.free && t.zombie == s.zombie && t.ptrFree == s.ptrFree
  }

  /** The head of the ready list runs next, or nobody. */
  ghost predicate HeadRuns(s: State, t: State) {
    if s.ready == [] then t.running == -1 && t.ready == []
    else t.running == s.ready[0] && t.ready == s.ready[1..]
  }

  ghost predicate Goes(s: State, t: State) {
    t.running == s.running && t.ready == s.ready
  }

  /** The processes whose timers are due wake in timer order, ahead of the ready ones; the first of all runs, and
      the one that ran goes last. */
  ghost predicate Scheduled(s: State, t: State, now: int) {
    exists w: nat :: ScheduledAfter(s, t, now, w)
  }

  ghost predicate ScheduledAfter(s: State, t: State, now: int, w: nat) {
    && w <= |s.timers| && t.timers == s.timers[w..]
    && (forall i :: 0 <= i < |s.timers| ==> (i < w <==> s.timers[i].wake <= now))
    && (forall b :: b in t.waiting <==> b in s.waiting && !HasTimer(s.timers[..w], b))
    && var queue := Pcbs(s.timers[..w]) + s.ready;
       if queue == [] then t.running == s.running && t.ready == []
       else t.running == queue[0] && t.ready == queue[1..] + [s.running]
  }

  /** The running process waits and the next one runs. */
  ghost predicate Switched(s: State, t: State) {
    HeadRuns(s, t) && t.waiting == s.waiting + [s.running] && SamePools(s, t)
  }

  /** The dead child c leaves the system. */
  ghost predicate Freed(s: State, t: State, c: int) {
    && Goes(s, t) && SameWaiting(s, t) && t.ptrFree == s.ptrFree + 1
    && t.free == [c] + s.free && Without(s.zombie, c, t.zombie)
  }

  /** Where a wait leaves its caller. */
  ghost predicate Waited(s: State, t: State, reports: bool, c: int) {
    if s.Me().children == [] then Goes(s, t) && SameWaiting(s, t) && SamePools(s, t)
    else if reports then c in s.Me().children && Freed(s, t, c)
    else Switched(s, t) && t.timers == s.timers
  }

  ghost predicate WaitedFor(s: State, t: State, told: seq<Delivery>, c: int) {
    Waited(s, t, told != [], c) && (told != [] ==> s.P(c).pid == told[0].pid)
  }

  /** The new process is ready behind all others. */
  ghost predicate Spawned(s: State, t: State) {
    && s.free != [] && t.free == s.free[1..] && t.ptrFree == s.ptrFree - 1 && t.zombie == s.zombie
    && t.running == s.running && t.ready == s.ready + [s.free[0]] && SameWaiting(s, t)
  }

  /** Where an exit leaves its caller and the parent. */
  ghost predicate Departed(s: State, t: State, awaited: bool) {
    && t.timers == s.timers && t.ptrFree == s.ptrFree
    && if awaited then
         t.running == s.Me().parent && t.ready == s.ready && Without(s.waiting, s.Me().parent, t.waiting)
         && t.free == [s.running] + s.free && t.zombie == s.zombie
       else
         s.ready != [] && HeadRuns(s, t) && t.waiting == s.waiting && t.free == s.free
         && t.zombie == s.zombie + [s.running]
  }

  /** Where every process is after a call or tick. */
  ghost predicate ListsAfter(s: State, op: Op, told: seq<Delivery>, t: State) {
    match op
    case Tick => Scheduled(s, t, s.time + 1) && SamePools(s, t)
    case Preempt => Scheduled(s, t, s.time) && SamePools(s, t)
    case SleepCall(_) => Switched(s, t)
    case SpawnCall(_, _) => Spawned(s, t)
    case WaitCall(_, _) =>
      exists c :: WaitedFor(s, t, told, c)
    case ExitCall(_) => Departed(s, t, told != [])
    case OtherCall(_, _, _, _, blocks) =>
      && Goes(s, t) && SameWaiting(s, t) && t.free == s.free && t.zombie == s.zombie
      && t.ptrFree == s.ptrFree - blocks
  }

  lemma ScheduleScheduled(s: State)
    requires Inv(s) && s.running != NULL
    ensures ScheduledAfter(s, Schedule(s), s.time, Due(s))
  {
    hide Inv, Schedule, Due, Pcbs, HasTimer, Queue;
    ScheduleRefines(s);
    QueueIs(s);
  }

  lemma QueueIs(s: State)
    ensures Queue(s) == Pcbs(s.timers[..Due(s)]) + s.ready
  {
  }

  lemma SameScheduled(s: State, e: State, t: State, now: int, w: nat)
    requires ScheduledAfter(e, t, now, w)
    requires e.timers == s.timers && e.waiting == s.waiting && e.ready == s.ready && e.running == s.running
    ensures Scheduled(s, t, now)
  {
    assert ScheduledAfter(s, t, now, w);
  }

  lemma ScheduleLists(s: State, op: Op)
    requires Inv(s) && CanStep(s, op) && IsSchedule(op)
    ensures Scheduled(s, Step(s, op), if op.Tick? then s.time + 1 else s.time) && SamePools(s, Step(s, op))
  {
    ScheduleOutcome(s, op);
    if op.Tick? {
      TickScheduled(s);
    } else {
      EnteredLoaded(s, op);
      ScheduleScheduled(Entered(s, op));
      hide Inv, Schedule, Entered, Delivered, ScheduledAfter, Scheduled;
      SameScheduled(s, Entered(s, op), Step(s, op), s.time, Due(Entered(s, op)));
    }
  }

  lemma TickScheduled(s: State)
    requires Inv(s) && s.running != NULL
    ensures Scheduled(s, Schedule(Advance(s)), s.time + 1)
  {
    RegistersKeepInv(s, Advance(s));
    ScheduleScheduled(Advance(s));
    hide Inv, Schedule, ScheduledAfter, Scheduled;
    SameScheduled(s, Advance(s), Schedule(Advance(s)), s.time + 1, Due(Advance(s)));
  }

  lemma BlockSwitched(s: State, timers: seq<Timer>)
    requires Inv(s) && s.running != NULL
    ensures Switched(s, Next(Block(s.(timers := timers)))) && Next(Block(s.(timers := timers))).timers == timers
  {
  }

  lemma SleepSwitched(s: State)
    requires Inv(s) && s.running != NULL
    ensures Switched(s, Sleep(s))
  {
    TimerPoolSuffices(s);
    RunnerIsLive(s);
    hide Inv, Block, Next, AddTimer, Switched;
    BlockSwitched(s, AddTimer(s.timers, Timer(s.time + s.Me().arg0, s.running)));
  }

  lemma SleepLists(s: State, op: Op)
    requires Inv(s) && CanStep(s, op) && op.SleepCall?
    ensures Switched(s, Step(s, op))
  {
    EnteredLoaded(s, op);
    CallIs(s, op);
    SleepSwitched(Entered(s, op));
    hide Inv, CanStep, Step, Entered, Sleep;
  }

  lemma ReapFreed(s: State, k: nat)
    requires k < |s.Me().children| && s.Me().children[k] in s.zombie
    ensures Freed(s, Reap(s, k), s.Me().children[k])
  {
    RemovedWithout(s.zombie, s.Me().children[k]);
    hide Remove, Store, Without;
  }

  lemma WaitWaited(s: State) returns (c: int)
    requires Inv(s) && s.running != NULL
    ensures Waited(s, Wait(s), Reaps(s), c)
    ensures Reaps(s) ==> c == s.Me().children[Awaited(s)]
  {
    c := if s.Me().children == [] then 0 else s.Me().children[Awaited(s)];
    WaitIs(s);
    if Reaps(s) {
      ReapedChild(s);
      ReapFreed(s, Awaited(s));
    } else if s.Me().children != [] {
      BlockSwitched(s, s.timers);
    }
    hide Inv, Wait, Block, Next, Reap, Freed, Switched, WaitBlocks, Awaited;
  }

  lemma WaitLists(s: State, op: Op) returns (c: int)
    requires Inv(s) && CanStep(s, op) && op.WaitCall?
    ensures WaitedFor(s, Step(s, op), Delivered(s, op), c)
  {
    var e := Entered(s, op);
    EnteredLoaded(s, op);
    CallIs(s, op);
    WaitReports(s, op);
    c := WaitWaited(e);
    SameReaps(e);
    hide Inv, CanStep, Step, Entered, Delivered, Wait, Reaps, Awaited, Waited, Loaded;
    SameWaited(s, e, Step(s, op), op, Delivered(s, op) != [], c);
  }

  lemma SameWaited(s: State, e: State, t: State, op: Op, reports: bool, c: int)
    requires op.WaitCall? && Loaded(s, e, Number(op), Arguments(op)) && Waited(e, t, reports, c)
    ensures Waited(s, t, reports, c) && e.P(c).pid == s.P(c).pid
  {
  }

  lemma SameReaps(s: State)
    ensures Reaps(s) ==> s.Me().children != []
  {
  }

  lemma SpawnLists(s: State, op: Op)
    requires Inv(s) && CanStep(s, op) && op.SpawnCall?
    ensures Spawned(s, Step(s, op))
  {
    hide Inv, Entered, CanStep, Step, Spawn, CanSpawn, Loaded, Spawned;
    CallIs(s, op);
    EnteredLoaded(s, op);
    SpawnSpawned(Entered(s, op));
    SameSpawned(s, Entered(s, op), Step(s, op), op);
  }

  lemma SameSpawned(s: State, e: State, t: State, op: Op)
    requires op.SpawnCall? && Loaded(s, e, Number(op), Arguments(op)) && Spawned(e, t)
    ensures Spawned(s, t)
  {
  }

  lemma SpawnSpawned(s: State)
    requires CanSpawn(s)
    ensures Spawned(s, Spawn(s))
  {
  }

  lemma ExitDeparts(s: State)
    requires Inv(s) && s.running != NULL && CanExit(s)
    ensures Departed(s, Exit(s), ParentWaits(Die(Adopt(s))))
  {
    var d := Die(Adopt(s));
    assert Partition(s) && Statuses(s) && Sleepers(s);
    hide Inv, Partition, Statuses, Sleepers, Die, Adopt, Remove, Without, DropTimers, Store, ParentWaits, HandOver,
      Dispatch;
    DieFields(s);
    DiePtr(s);
    if ParentWaits(d) {
      ParentIsListed(s, d);
      HandOverFields(s, d);
      HandOverSleepers(s, Exit(s));
      HandOverPtr(d);
      RemovedWithout(s.waiting, s.Me().parent);
    } else {
      DispatchHead(d);
    }
  }

  lemma DiePtr(s: State)
    ensures Die(Adopt(s)).ptrFree == s.ptrFree
  {
  }

  lemma HandOverPtr(d: State)
    requires HasChild(d, d.Me().parent, d.Me().pid)
    ensures HandOver(d).ptrFree == d.ptrFree
  {
  }

  lemma DispatchHead(d: State)
    requires d.ready != []
    ensures var t := Dispatch(d);
            HeadRuns(d, t) && t.waiting == d.waiting && t.timers == d.timers && SamePools(d, t)
  {
  }

  lemma ExitLists(s: State, op: Op)
    requires Inv(s) && CanStep(s, op) && op.ExitCall?
    ensures Departed(s, Step(s, op), Delivered(s, op) != [])
  {
    var e := Entered(s, op);
    EnteredLoaded(s, op);
    CallIs(s, op);
    ExitReports(s, op.value);
    ExitDeparts(e);
    hide Inv, CanStep, Step, Entered, Delivered, Exit, Die, Adopt, ParentWaits, CanExit;
  }

  lemma OtherLists(s: State, op: Op)
    requires Inv(s) && CanStep(s, op) && op.OtherCall?
    ensures var t := Step(s, op);
            && Goes(s, t) && SameWaiting(s, t) && t.free == s.free && t.zombie == s.zombie
            && t.ptrFree == s.ptrFree - op.blocks
  {
    EnteredLoaded(s, op);
    CallIs(s, op);
    hide Inv, Entered, CanStep, Step;
  }

  /** Where every process is after every call or tick. */
  lemma StepLists(s: State, op: Op)
    requires Inv(s) && CanStep(s, op)
    ensures ListsAfter(s, op, Delivered(s, op), Step(s, op))
  {
    hide Inv, CanStep, Step, Entered, Delivered, Scheduled, SamePools, Switched, Spawned, WaitedFor, Departed;
    match op
    case Tick => ScheduleLists(s, op);
    case Preempt => ScheduleLists(s, op);
    case SleepCall(_) => SleepLists(s, op);
    case SpawnCall(_, _) => SpawnLists(s, op);
    case WaitCall(_, _) =>
      var c := WaitLists(s, op);
    case ExitCall(_) => ExitLists(s, op);
    case OtherCall(_, _, _, _, _) => OtherLists(s, op);
  }

  // ---------- which calls are possible ----------

  lemma ExitPossible(s: State)
    requires Inv(s) && s.running != NULL
    ensures CanExit(s) <==>
              s.running != s.init &&
              if Expects(s.P(s.Me().parent), s.Me().pid) then s.running in s.P(s.Me().parent).children
              else s.ready != []
  {
    if s.running != s.init {
      var d := Die(Adopt(s));
      DieDies(s);
      ParentExpects(s);
      DieFields(s);
      RunnerIsLive(s);
      assert Rooted(s);
      assert s.Me().parent != NULL;
      if ParentWaits(d) {
        ParentIsAnother(s);
        DieFamily(s);
        ChildIffEntered(s, d);
      }
    }
    hide Inv, Die, Adopt;
  }

  lemma ChildIffEntered(s: State, d: State)
    requires Inv(s) && s.running != NULL && Dies(s, d, s.running, s.Me().arg0) && ChildrenOk(d) && Pids(d)
    requires s.Me().parent != s.running && Live(d, s.running)
    ensures HasChild(d, d.Me().parent, d.Me().pid) <==> s.running in s.P(s.Me().parent).children
  {
    var p := s.Me().parent;
    assert s.running in s.Me().children ==> ChildOk(s, s.running, s.running);
    assert s.running in d.P(p).children <==> s.running in s.P(p).children;
    if HasChild(d, p, d.Me().pid) {
      FindsItself(d, p);
    }
    if s.running in d.P(p).children {
      FindPidFinds(d, d.P(p).children, d.Me().pid);
    }
  }

  /** The child that a wait chooses is dead. */
  ghost predicate FindsDead(s: State, pid: int, k: nat) {
    Chosen(s, pid, k) && s.P(s.Me().children[k]).status == Zombie
  }

  lemma WaitPossible(s: State, pid: int, result: int)
    requires Inv(s) && s.running != NULL
    ensures WaitBlocks(Entered(s, WaitCall(pid, result))) <==>
              s.Me().children != [] && forall k: nat :: !FindsDead(s, pid, k)
  {
    var e := Entered(s, WaitCall(pid, result));
    EnteredLoaded(s, WaitCall(pid, result));
    if s.Me().children != [] {
      ScanChosen(e, pid);
      LoadedChosen(s, e, pid, Awaited(e), 3, [pid, result]);
      assert WaitBlocks(e) <==> !FindsDead(s, pid, Awaited(e));
      forall k: nat | Chosen(s, pid, k) ensures k == Awaited(e) {
        ChosenOnce(s, pid, k, Awaited(e));
      }
    }
    hide Inv, Awaited, Chosen, Entered;
  }

  lemma LoadedExit(s: State, e: State, op: Op)
    requires Inv(s) && s.running != NULL && op.ExitCall? && Loaded(s, e, Number(op), Arguments(op))
    ensures e.ready == s.ready && e.init == s.init
    ensures s.running in e.P(s.Me().parent).children <==> s.running in s.P(s.Me().parent).children
  {
  }

  /** Which calls a running process can make without leading the code to a null pointer, in terms of what is there
      before the call. */
  lemma PossibleIff(s: State, op: Op)
    requires Inv(s) && s.running != NULL
    ensures CanStep(s, op) <==>
              match op
              case Tick => true
              case Preempt => true
              case SleepCall(_) => true
              case SpawnCall(_, _) => s.free != [] && s.ptrFree > 0
              case WaitCall(pid, _) =>
                s.ready != [] || s.Me().children == [] || exists k: nat :: FindsDead(s, pid, k)
              case ExitCall(_) =>
                s.running != s.init &&
                if Expects(s.P(s.Me().parent), s.Me().pid) then s.running in s.P(s.Me().parent).children
                else s.ready != []
              case OtherCall(num, _, _, _, blocks) => 6 < num && blocks <= s.ptrFree
  {
    if op.Tick? || op.Preempt? || op.SleepCall? {
    } else {
      EnteredLoaded(s, op);
      var e := Entered(s, op);
      if op.WaitCall? {
        WaitPossible(s, op.pid, op.result);
        hide Inv, WaitBlocks, FindsDead, Chosen, Entered;
      } else if op.ExitCall? {
        hide Inv, Entered, CanExit, Expects, Loaded;
        LoadedExit(s, e, op);
        SameParent(s, e, op);
        ExitPossible(e);
      } else {
        hide Inv, Entered;
      }
    }
  }
}
