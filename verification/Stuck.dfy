/** A process blocked in a wait for a given pid is woken by one thing only, the exit of a child that has the pid
    and whose parent pointer names the waiting process.  Without such a child it waits forever. */
module Stuck {
  import opened Sequences
  import opened ProcessModel
  import opened ProcessInvariant
  import opened ProcessSteps
  import opened ExitValues
  import opened Wakeups
  import opened Initial
  import Lost = LostWakeup

  /** Process b is blocked in a wait for this pid. */
  ghost predicate Awaits(s: State, b: int, pid: int) {
    b in s.waiting && s.P(b).callNum == DSOS_CALL_WAIT && s.P(b).arg0 == pid && pid != 0
  }

  /** No child whose end would wake b has this pid: such a child has ended, or there is none. */
  ghost predicate Hopeless(s: State, b: int, pid: int) {
    forall c :: c in s.P(b).children && s.P(c).parent == b && s.P(c).pid == pid ==> s.P(c).status == Zombie
  }

  /** The exit of a process with this pid whose parent pointer names b. */
  predicate EndsWait(s: State, op: Op, b: int, pid: int) {
    op.ExitCall? && s.Me().parent == b && s.Me().pid == pid
  }

  // ---------- the waiting stay waiting ----------

  ghost predicate StillAwaits(s: State, t: State, b: int) {
    b in t.waiting && t.P(b).callNum == s.P(b).callNum && t.P(b).arg0 == s.P(b).arg0
  }

  lemma {:induction false} WakeElapsedLeaves(s: State, k: nat, b: int)
    requires k <= |s.ready| && b in s.waiting && !HasTimer(s.timers, b)
    ensures b in WakeElapsed(s, k).waiting && WakeElapsed(s, k).P(b) == s.P(b)
    decreases |s.timers|
  {
    if Elapsed(s) {
      var t, o := WakeOne(s, k), s.timers[0].pcb;
      assert o != b && b in multiset(s.waiting);
      assert !HasTimer(s.timers[1..], b) by { TailHasFewer(s.timers, b); }
      hide HasTimer, InsertAt, Remove;
      WakeElapsedLeaves(t, k + 1, b);
    }
  }

  lemma TailHasFewer(timers: seq<Timer>, b: int)
    requires timers != [] && !HasTimer(timers, b)
    ensures !HasTimer(timers[1..], b)
  {
    assert forall i :: 0 <= i < |timers[1..]| ==> timers[1..][i] == timers[i + 1];
  }

  lemma NoTimerFor(s: State, b: int)
    requires Inv(s) && b in s.waiting && s.P(b).callNum == DSOS_CALL_WAIT
    ensures !HasTimer(s.timers, b) && b != s.running && b !in s.ready && b !in s.free
  {
    Placed(s);
    assert InOnePlace(s, b);
  }

  lemma RotateLeaves(s: State, b: int)
    requires b in s.waiting && b != s.running && b !in s.ready
    ensures b in Rotate(s).waiting && Rotate(s).P(b) == s.P(b)
  {
  }

  lemma ScheduleLeaves(s: State, b: int)
    requires Inv(s) && b in s.waiting && s.P(b).callNum == DSOS_CALL_WAIT
    ensures StillAwaits(s, Schedule(s), b)
  {
    NoTimerFor(s, b);
    WakeElapsedLeaves(s, 0, b);
    WakeElapsedKeepsInv(s, 0);
    var t := WakeElapsed(s, 0);
    NoTimerFor(t, b);
    hide Inv, WakeElapsed, Rotate;
    RotateLeaves(t, b);
  }

  lemma SpawnLeaves(s: State, b: int)
    requires Inv(s) && b in s.waiting && s.P(b).callNum == DSOS_CALL_WAIT && CanSpawn(s)
    ensures StillAwaits(s, Spawn(s), b)
  {
    NoTimerFor(s, b);
  }

  lemma BlockLeaves(s: State, b: int)
    requires b in s.waiting && b != s.running
    ensures StillAwaits(s, Next(Block(s)), b)
  {
  }

  lemma SleepLeaves(s: State, b: int)
    requires b in s.waiting && b != s.running
    ensures StillAwaits(s, Sleep(s), b)
  {
    var u := s.(timers := AddTimer(s.timers, Timer(s.time + s.Me().arg0, s.running)));
    hide AddTimer;
    BlockLeaves(u, b);
  }

  lemma WaitLeaves(s: State, b: int)
    requires b in s.waiting && b != s.running
    ensures StillAwaits(s, Wait(s), b)
  {
    BlockLeaves(s, b);
    hide Remove, RemoveAt, Store;
  }

  lemma HandOverWakes(d: State)
    requires HasChild(d, d.Me().parent, d.Me().pid) && 0 <= d.Me().parent < |d.procs|
    ensures Woken(HandOver(d), d.Me().parent, d.Me().pid)
  {
    hide Remove, RemoveAt, DropTimers, Store, FindPid;
  }

  lemma HandOverLeaves(d: State, b: int)
    requires HasChild(d, d.Me().parent, d.Me().pid) && b in d.waiting && d.Me().parent != b
    ensures StillAwaits(d, HandOver(d), b)
  {
    HandOverProcs(d);
    assert SameButChildren(d.P(b), HandOver(d).P(b));
    assert b in multiset(d.waiting);
    assert b in multiset(HandOver(d).waiting);
  }

  lemma DispatchLeaves(d: State, b: int)
    requires d.ready != [] && b in d.waiting
    ensures StillAwaits(d, Dispatch(d), b)
  {
  }

  lemma ExitLeaves(s: State, b: int, pid: int)
    requires Inv(s) && s.running != NULL && CanExit(s) && Awaits(s, b, pid)
    ensures if s.Me().parent == b && s.Me().pid == pid then Woken(Exit(s), b, pid) else StillAwaits(s, Exit(s), b)
  {
    var d := Die(Adopt(s));
    DeadFields(s, b);
    hide Inv, Die, Adopt, HandOver, Dispatch;
    if ParentWaits(d) {
      if d.Me().parent == b { HandOverWakes(d); } else { HandOverLeaves(d, b); }
    } else {
      DispatchLeaves(d, b);
    }
  }

  lemma DeadFields(s: State, b: int)
    requires Inv(s) && s.running != NULL && s.running != s.init && b in s.waiting && s.P(b).callNum == DSOS_CALL_WAIT
    ensures var d := Die(Adopt(s));
            && d.Me().parent == s.Me().parent && d.Me().pid == s.Me().pid && b in d.waiting && 0 <= b < |d.procs|
            && d.P(b).status == Waiting && d.P(b).callNum == s.P(b).callNum && d.P(b).arg0 == s.P(b).arg0
  {
    DieFields(s);
    NoTimerFor(s, b);
    Placed(s);
    assert InOnePlace(s, b);
    var d := Die(Adopt(s));
    hide Die, Adopt;
    assert SameButChildren(s.Me(), d.Me()) && SameButChildren(s.P(b), d.P(b));
  }

  /** Process b runs again, and its wait reports this pid. */
  ghost predicate Woken(t: State, b: int, pid: int) {
    t.running == b && t.Me().status == Running && t.Me().callResult == pid
  }

  lemma EnteredLeaves(s: State, op: Op, b: int, pid: int)
    requires Inv(s) && CanStep(s, op) && Awaits(s, b, pid)
    ensures Inv(Entered(s, op)) && Awaits(Entered(s, op), b, pid)
    ensures Entered(s, op).P(b).arg0 == s.P(b).arg0 && Entered(s, op).running == s.running != b
    ensures Entered(s, op).P(b).callNum == s.P(b).callNum
    ensures Entered(s, op).Me().parent == s.Me().parent && Entered(s, op).Me().pid == s.Me().pid
  {
    NoTimerFor(s, b);
    EnteredKeepsInv(s, op);
    hide Inv;
  }

  lemma TickLeaves(s: State, op: Op, b: int)
    requires Inv(s) && CanStep(s, op) && (op.Tick? || op.Preempt?)
    requires b in s.waiting && s.P(b).callNum == DSOS_CALL_WAIT
    requires b in Entered(s, op).waiting && Entered(s, op).P(b).callNum == DSOS_CALL_WAIT
    ensures StillAwaits(if op.Tick? then s else Entered(s, op), Step(s, op), b)
  {
    EnteredKeepsInv(s, op);
    AdvancedInv(s);
    hide Inv, Schedule, Entered;
    ScheduleLeaves(Advance(s), b);
    ScheduleLeaves(Entered(s, op), b);
  }

  lemma AdvancedInv(s: State)
    requires Inv(s)
    ensures Inv(Advance(s))
  {
    assert forall x :: Advance(s).P(x) == s.P(x);
    RegistersKeepInv(s, Advance(s));
  }

  /** Among all calls and ticks, exactly such an exit ends the wait. */
  lemma StepEndsWaitIff(s: State, op: Op, b: int, pid: int)
    requires Inv(s) && CanStep(s, op) && Awaits(s, b, pid)
    ensures Awaits(Step(s, op), b, pid) <==> !EndsWait(s, op, b, pid)
    ensures EndsWait(s, op, b, pid) ==> Woken(Step(s, op), b, pid)
  {
    EnteredLeaves(s, op, b, pid);
    CallIs(s, op);
    StepKeepsInv(s, op);
    var e := Entered(s, op);
    hide Inv, CanStep, Step, Entered, Spawn, Sleep, Wait, Exit, CanSpawn, CanExit, Answer;
    RunnerIsNotWaiting(Step(s, op), b);
    match op
    case Tick => TickLeaves(s, op, b);
    case Preempt => TickLeaves(s, op, b);
    case SpawnCall(_, _) => SpawnLeaves(e, b);
    case SleepCall(_) => SleepLeaves(e, b);
    case WaitCall(_, _) => WaitLeaves(e, b);
    case ExitCall(_) => ExitLeaves(e, b, pid);
    case OtherCall(_, _, result, value, blocks) => OtherLeaves(e, b, result, value, blocks);
  }

  lemma RunnerIsNotWaiting(s: State, b: int)
    requires Inv(s)
    ensures b in s.waiting ==> s.running != b
  {
    Placed(s);
    assert InOnePlace(s, b);
  }

  lemma OtherLeaves(s: State, b: int, result: int, value: int, blocks: nat)
    requires blocks <= s.ptrFree && b in s.waiting && b != s.running
    ensures StillAwaits(s, Answer(s, result, value, blocks), b)
  {
  }

  // ---------- the hopeless stay hopeless ----------

  /** The children of b that could wake it are no more than before, and the dead among them stay dead. */
  ghost predicate NoNewHope(s: State, t: State, b: int) {
    forall c :: c in t.P(b).children && t.P(c).parent == b ==>
      && c in s.P(b).children && s.P(c).parent == b && t.P(c).pid == s.P(c).pid
      && (s.P(c).status == Zombie ==> t.P(c).status == Zombie)
  }

  lemma NoNewHopeKeeps(s: State, t: State, b: int, pid: int)
    requires Hopeless(s, b, pid) && NoNewHope(s, t, b)
    ensures Hopeless(t, b, pid)
  {
  }

  lemma NoNewHopeTwice(s: State, t: State, u: State, b: int)
    requires NoNewHope(s, t, b) && NoNewHope(t, u, b)
    ensures NoNewHope(s, u, b)
  {
  }

  /** Nothing about families changes, and zombies keep their status. */
  lemma QuietHope(s: State, t: State, b: int)
    requires Quiet(s, t)
    requires forall c :: c in s.P(b).children && s.P(c).status == Zombie ==> t.P(c).status == Zombie
    ensures NoNewHope(s, t, b)
  {
    forall c | c in t.P(b).children && t.P(c).parent == b
      ensures c in s.P(b).children && s.P(c).parent == b && t.P(c).pid == s.P(c).pid
    {
      assert SameIdentity(s.P(b), t.P(b)) && SameIdentity(s.P(c), t.P(c));
    }
  }

  lemma ScheduleHope(s: State, b: int)
    requires Inv(s)
    ensures NoNewHope(s, Schedule(s), b)
  {
    ScheduleQuiet(s);
    forall c | c in s.P(b).children && s.P(c).status == Zombie ensures Schedule(s).P(c).status == Zombie {
      assert ChildOk(s, b, c);
      ZombieIsListed(s, c);
      ScheduleZombies(s, c);
    }
    hide Inv, Schedule, Quiet;
    QuietHope(s, Schedule(s), b);
  }

  lemma SpawnHope(s: State, b: int)
    requires Inv(s) && s.running != NULL && CanSpawn(s) && b != s.running && b in s.waiting
    ensures NoNewHope(s, Spawn(s), b)
  {
    SpawnProcs(s);
    SpawnIsBirth(s);
    BirthChildren(s, Spawn(s), s.running, s.free[0]);
    forall c | c in Spawn(s).P(b).children ensures c in s.P(b).children && c != s.free[0] {}
    SpawnFamilies(s);
    hide Inv, Spawn, Birth, CanSpawn;
  }

  lemma SpawnFamilies(s: State)
    requires CanSpawn(s)
    ensures forall c :: c != s.free[0] ==> Spawn(s).P(c).parent == s.P(c).parent
    ensures forall c :: c != s.free[0] ==> Spawn(s).P(c).pid == s.P(c).pid
    ensures forall c :: c != s.free[0] ==> Spawn(s).P(c).status == s.P(c).status
  {
  }

  lemma BlockHope(s: State, timers: seq<Timer>, b: int)
    requires Inv(s) && s.running != NULL
    ensures NoNewHope(s, Next(Block(s.(timers := timers))), b)
  {
    BlockNextQuiet(s, timers);
  }

  lemma SleepHope(s: State, b: int)
    requires Inv(s) && s.running != NULL
    ensures NoNewHope(s, Sleep(s), b)
  {
    BlockHope(s, AddTimer(s.timers, Timer(s.time + s.Me().arg0, s.running)), b);
    hide AddTimer, Block, Next, Inv;
  }

  lemma WaitHope(s: State, b: int)
    requires Inv(s) && s.running != NULL && b != s.running
    ensures NoNewHope(s, Wait(s), b)
  {
    hide Inv, Next, Block, Reap, WaitBlocks, Return;
    if s.Me().children == [] {
      ReturnHope(s, DSOS_EWAIT, b);
    } else if WaitBlocks(s) {
      BlockHope(s, s.timers, b);
      assert s.(timers := s.timers) == s;
    } else {
      ReapHope(s, Awaited(s), b);
    }
  }

  lemma ReturnHope(s: State, result: int, b: int)
    ensures NoNewHope(s, Return(s, result), b)
  {
  }

  lemma ReapHope(s: State, k: nat, b: int)
    requires k < |s.Me().children| && b != s.running
    ensures NoNewHope(s, Reap(s, k), b)
  {
    hide Remove, RemoveAt, Store;
  }

  /** Children that init adopts do not have init as their parent. */
  lemma ExitHope(s: State, b: int)
    requires Inv(s) && s.running != NULL && CanExit(s) && b != s.running
    ensures NoNewHope(s, Exit(s), b)
  {
    var over := ParentWaits(Die(Adopt(s)));
    assert s.running != s.init && ChildrenOk(s);
    hide Inv, Exit, CanExit, Die, Adopt, EndedChildren, EndedStatuses, ChildrenOk;
    if over { HandOverEnded(s); } else { DispatchEnded(s); }
    ExitParents(s);
    EndedHope(s, Exit(s), over, b);
  }

  lemma EndedHope(s: State, t: State, over: bool, b: int)
    requires ChildrenOk(s) && s.running != s.init && b != s.running
    requires EndedChildren(s, t, over) && EndedStatuses(s, t) && forall x :: t.P(x).parent == s.P(x).parent
    ensures NoNewHope(s, t, b)
  {
    assert forall c :: c in s.Me().children ==> ChildOk(s, s.running, c);
  }

  lemma ExitParents(s: State)
    requires Inv(s) && s.running != NULL && CanExit(s)
    ensures forall x :: Exit(s).P(x).parent == s.P(x).parent
  {
    var d := Die(Adopt(s));
    DieFields(s);
    assert forall x :: SameButChildren(s.P(x), d.P(x));
    if ParentWaits(d) {
      HandOverProcs(d);
    } else {
      DispatchQuiet(d);
      assert forall x :: SameIdentity(d.P(x), Dispatch(d).P(x));
    }
    hide Inv, Die, Adopt, HandOver, Dispatch;
  }

  lemma OtherHope(s: State, result: int, value: int, blocks: nat, b: int)
    requires blocks <= s.ptrFree
    ensures NoNewHope(s, Answer(s, result, value, blocks), b)
  {
  }

  lemma EnteredHope(s: State, op: Op, b: int)
    ensures NoNewHope(s, Entered(s, op), b)
  {
  }

  lemma StepHope(s: State, op: Op, b: int)
    requires Inv(s) && CanStep(s, op) && b != s.running && b in s.waiting
    ensures NoNewHope(s, Step(s, op), b)
  {
    var e, t := Entered(s, op), Step(s, op);
    EnteredKeepsInv(s, op);
    EnteredHope(s, op, b);
    CallIs(s, op);
    hide Inv, Entered, Schedule, Spawn, Sleep, Wait, Exit, Answer, OnlyRegisters, CanSpawn, CanExit, NoNewHope;
    match op
    case Tick =>
      AdvancedInv(s);
      OnlyTheTime(s, b);
      ScheduleHope(Advance(s), b);
      NoNewHopeTwice(s, Advance(s), t, b);
    case Preempt =>
      ScheduleHope(e, b);
      NoNewHopeTwice(s, e, t, b);
    case SpawnCall(_, _) =>
      SpawnHope(e, b);
      NoNewHopeTwice(s, e, t, b);
    case SleepCall(_) =>
      SleepHope(e, b);
      NoNewHopeTwice(s, e, t, b);
    case WaitCall(_, _) =>
      WaitHope(e, b);
      NoNewHopeTwice(s, e, t, b);
    case ExitCall(_) =>
      ExitHope(e, b);
      NoNewHopeTwice(s, e, t, b);
    case OtherCall(_, _, result, value, blocks) =>
      OtherHope(e, result, value, blocks, b);
      NoNewHopeTwice(s, e, t, b);
  }

  lemma OnlyTheTime(s: State, b: int)
    ensures NoNewHope(s, Advance(s), b)
  {
  }

  /** The process that exits is a child of the process that it wakes. */
  lemma WakerIsChild(s: State, op: Op, b: int, pid: int)
    requires Inv(s) && CanStep(s, op) && Awaits(s, b, pid) && EndsWait(s, op, b, pid)
    ensures s.running in s.P(b).children
  {
    var e := Entered(s, op);
    EnteredLeaves(s, op, b, pid);
    EnteredKeepsInv(s, op);
    CallIs(s, op);
    AwaitedParent(e, b, pid);
    HandOverEnded(e);
    assert SameIdentity(s.P(b), e.P(b));
    hide CanStep, Entered, CanExit, Ended, Exit;
  }

  lemma HopelessIsNotWoken(s: State, op: Op, b: int, pid: int)
    requires Inv(s) && CanStep(s, op) && Awaits(s, b, pid) && Hopeless(s, b, pid)
    ensures !EndsWait(s, op, b, pid)
  {
    assert s.running != NULL ==> s.Me().status in {Running, Ready};
    hide Inv, CanStep, Awaits;
    if EndsWait(s, op, b, pid) {
      WakerIsChild(s, op, b, pid);
    }
  }

  lemma AwaitedParent(s: State, b: int, pid: int)
    requires Inv(s) && s.running != NULL && CanExit(s) && Awaits(s, b, pid)
    requires s.Me().parent == b && s.Me().pid == pid
    ensures ParentWaits(Die(Adopt(s)))
  {
    NoTimerFor(s, b);
    ParentWaitsSame(s);
  }

  /** Whatever the processes do, the wait never ends. */
  lemma {:induction false} WaitsForever(s: State, ops: seq<Op>, b: int, pid: int)
    requires Inv(s) && ValidRun(s, ops) && Awaits(s, b, pid) && Hopeless(s, b, pid)
    ensures Awaits(After(s, ops), b, pid) && After(s, ops).running != b
    decreases |ops|
  {
    RunnerIsNotWaiting(s, b);
    if ops != [] {
      hide Inv, CanStep, Step, Hopeless, NoNewHope, EndsWait;
      HopelessIsNotWoken(s, ops[0], b, pid);
      StepEndsWaitIff(s, ops[0], b, pid);
      StepHope(s, ops[0], b);
      NoNewHopeKeeps(s, Step(s, ops[0]), b, pid);
      StepKeepsInv(s, ops[0]);
      WaitsForever(Step(s, ops[0]), ops[1..], b, pid);
    }
  }

  /** A parent that was not woken by the end of the child it waits for is never woken again. */
  lemma LostIsForever(s: State, ops: seq<Op>, w: int, c: int)
    requires Inv(s) && ValidRun(s, ops)
    requires c in s.P(w).children && s.P(c).status == Zombie && WaitsFor(s.P(w), s.P(c).pid) && s.P(w).arg0 != 0
    ensures Awaits(After(s, ops), w, s.P(c).pid) && After(s, ops).running != w
  {
    assert ChildOk(s, w, c);
    WaitingIsListed(s, w);
    hide After, ValidRun;
    forall x | x in s.P(w).children && s.P(x).pid == s.P(c).pid ensures x == c {
      assert ChildOk(s, w, x);
    }
    WaitsForever(s, ops, w, s.P(c).pid);
  }

  /** The initial process of the run that loses its wakeup never runs again. */
  lemma InitIsStuck(ops: seq<Op>)
    requires ValidRun(Lost.S7, ops)
    ensures After(Lost.S7, ops).running != 0
  {
    var run := Lost.WakeupCanBeLost();
    BootInv(4);
    RunKeepsInv(Boot(4), run);
    assert 2 in Lost.S7.P(0).children && Lost.S7.P(2).status == Zombie && Lost.S7.P(0).arg0 == Lost.S7.P(2).pid == 2;
    assert WaitsFor(Lost.S7.P(0), Lost.S7.P(2).pid);
    hide *;
    LostIsForever(Lost.S7, ops, 0, 2);
  }
}
