/** The status of the running process: sleep and wait do not set that of the process that they let run. */
module RunningStatus {
  import opened ProcessModel
  import opened ProcessInvariant
  import opened ProcessSteps
  import opened Initial
  import opened Scheduling

  /** The call blocks its caller: every sleep, and a wait whose child is still alive. */
  predicate Blocks(s: State, op: Op) {
    op.SleepCall? || (op.WaitCall? && WaitBlocks(Entered(s, op)))
  }

  /** What a step does to the status of the running process. */
  ghost predicate StatusRight(s: State, t: State, blocks: bool) {
    t.running != NULL ==>
      (t.Me().status == Running <==> !blocks && (t.running == s.running ==> s.Me().status == Running))
  }

  lemma RotateStatus(s: State)
    requires Partition(s) && s.running != NULL
    ensures StatusRight(s, Rotate(s), false)
  {
    Placed(s);
    if s.ready != [] {
      assert InOnePlace(s, s.ready[0]);
    }
  }

  lemma {:induction false} WakeElapsedRunner(s: State, k: nat)
    requires Inv(s) && s.running != NULL && k <= |s.ready|
    ensures WakeElapsed(s, k).Me() == s.Me() && WakeElapsed(s, k).running == s.running
    decreases |s.timers|
  {
    if Elapsed(s) {
      Placed(s);
      assert InOnePlace(s, s.timers[0].pcb);
      assert s.timers[0].pcb in s.waiting;
      WakeOneKeepsInv(s, k);
      hide Inv, WakeOne;
      WakeElapsedRunner(WakeOne(s, k), k + 1);
    }
  }

  lemma ScheduleStatus(s: State)
    requires Inv(s) && s.running != NULL
    ensures StatusRight(s, Schedule(s), false)
  {
    WakeElapsedRunner(s, 0);
    WakeElapsedKeepsInv(s, 0);
    RotateStatus(WakeElapsed(s, 0));
    hide Inv, WakeElapsed, Rotate;
  }

  lemma BlockStatus(s: State)
    requires Partition(s) && Statuses(s) && s.running != NULL
    ensures StatusRight(s, Next(Block(s)), true)
  {
    Placed(s);
    if s.ready != [] {
      assert InOnePlace(s, s.ready[0]);
    }
  }

  lemma SpawnStatus(s: State)
    requires Inv(s) && CanSpawn(s) && s.running != NULL
    ensures StatusRight(s, Spawn(s), false)
  {
    Placed(s);
    assert InOnePlace(s, s.free[0]);
  }

  lemma WaitStatus(s: State)
    requires Inv(s) && s.running != NULL
    ensures StatusRight(s, Wait(s), WaitBlocks(s))
  {
    if WaitBlocks(s) {
      BlockStatus(s);
    }
    hide Inv, Block, Next, Awaited;
  }

  lemma ExitStatus(s: State)
    requires Inv(s) && s.running != NULL && CanExit(s)
    ensures StatusRight(s, Exit(s), false)
  {
    var d := Die(Adopt(s));
    DieFields(s);
    Placed(s);
    if ParentWaits(d) {
      ParentIsListed(s, d);
      HandOverFields(s, d);
      assert InOnePlace(s, s.Me().parent);
    } else {
      assert InOnePlace(s, s.ready[0]);
    }
    hide Inv, Die, Adopt, HandOver;
  }

  lemma SleepStatus(s: State)
    requires Inv(s) && s.running != NULL
    ensures StatusRight(s, Sleep(s), true)
  {
    TimerPoolSuffices(s);
    RunnerHasNoTimer(s);
    var u := s.(timers := AddTimer(s.timers, Timer(s.time + s.Me().arg0, s.running)));
    assert Places(u) == Places(s);
    hide AddTimer, Block, Next, Places;
    BlockStatus(u);
  }

  lemma RunnerHasNoTimer(s: State)
    requires Inv(s) && s.running != NULL
    ensures s.Me().timer == NULL
  {
    Placed(s);
    assert InOnePlace(s, s.running);
  }

  lemma OtherStatus(s: State, result: int, value: int, blocks: nat)
    requires blocks <= s.ptrFree
    ensures StatusRight(s, Answer(s, result, value, blocks), false)
  {
  }

  lemma SameStatus(s: State, e: State, t: State, blocks: bool)
    requires StatusRight(e, t, blocks) && e.running == s.running && e.Me().status == s.Me().status
    ensures StatusRight(s, t, blocks)
  {
  }

  lemma EnteredStatus(s: State, op: Op)
    ensures Entered(s, op).running == s.running && Entered(s, op).Me().status == s.Me().status
  {
  }

  /** After a step the running process has the status Running if and only if the step is not a sleep or a wait
      that blocks and, where no switch takes place, the process had it before. */
  lemma StepStatus(s: State, op: Op)
    requires Inv(s) && CanStep(s, op)
    ensures StatusRight(s, Step(s, op), Blocks(s, op))
  {
    var e := Entered(s, op);
    EnteredKeepsInv(s, op);
    EnteredStatus(s, op);
    CallIs(s, op);
    hide Inv, Entered, Schedule, Spawn, Sleep, Wait, Exit, Answer, StatusRight, OnlyRegisters, WaitBlocks,
      CanSpawn, CanExit;
    match op
    case Tick => TickStatus(s);
    case Preempt =>
      ScheduleStatus(e);
      SameStatus(s, e, Step(s, op), false);
    case SpawnCall(_, _) =>
      SpawnStatus(e);
      SameStatus(s, e, Step(s, op), false);
    case SleepCall(_) =>
      SleepStatus(e);
      SameStatus(s, e, Step(s, op), true);
    case WaitCall(_, _) =>
      WaitStatus(e);
      SameStatus(s, e, Step(s, op), Blocks(s, op));
    case ExitCall(_) =>
      ExitStatus(e);
      SameStatus(s, e, Step(s, op), false);
    case OtherCall(_, _, result, value, blocks) =>
      OtherStatus(e, result, value, blocks);
      SameStatus(s, e, Step(s, op), false);
  }

  lemma TickStatus(s: State)
    requires Inv(s) && s.running != NULL
    ensures StatusRight(s, Schedule(Advance(s)), false)
  {
    assert forall x :: Advance(s).P(x) == s.P(x);
    RegistersKeepInv(s, Advance(s));
    hide Inv, Schedule;
    ScheduleStatus(Advance(s));
  }

  /** The process that runs after the run was let run by a sleep or a wait; `was` says the same of the first. */
  predicate LetRun(s: State, ops: seq<Op>, was: bool)
    requires ValidRun(s, ops)
    decreases |ops|
  {
    if ops == [] then was
    else LetRun(Step(s, ops[0]), ops[1..], Blocks(s, ops[0]) || (was && Step(s, ops[0]).running == s.running))
  }

  lemma {:induction false} RunStatus(s: State, ops: seq<Op>)
    requires Inv(s) && ValidRun(s, ops)
    ensures After(s, ops).running != NULL ==>
              (After(s, ops).Me().status == Running <==> !LetRun(s, ops, s.Me().status != Running))
    decreases |ops|
  {
    if ops != [] {
      var t := Step(s, ops[0]);
      hide Inv, Step, Blocks;
      StepStatus(s, ops[0]);
      StepKeepsInv(s, ops[0]);
      NextRuns(s, ops);
      if t.running != NULL { RunStatus(t, ops[1..]); }
    }
  }

  /** Nothing happens once no process runs. */
  lemma NextRuns(s: State, ops: seq<Op>)
    requires ValidRun(s, ops) && ops != []
    ensures Step(s, ops[0]).running == NULL ==> ops[1..] == []
  {
  }

  /** From the start: the running process has the status Running if and only if the last switch of the run was
      not made by a sleep or a wait. */
  lemma StatusFromStart(n: nat, ops: seq<Op>)
    requires n > 0 && ValidRun(Boot(n), ops)
    ensures After(Boot(n), ops).running != NULL ==>
              (After(Boot(n), ops).Me().status == Running <==> !LetRun(Boot(n), ops, false))
  {
    BootInv(n);
    assert Boot(n).Me().status == Running;
    hide Inv, LetRun, After, ValidRun;
    RunStatus(Boot(n), ops);
  }

  /** The first process spawns a child and waits for it: the child runs with the status Ready. */
  lemma ReadyWhileRunning()
    ensures ValidRun(Boot(2), [SpawnCall(0, 0), WaitCall(0, 0)])
    ensures var t := After(Boot(2), [SpawnCall(0, 0), WaitCall(0, 0)]); t.running == 1 && t.Me().status == Ready
  {
    var s, ops := Boot(2), [SpawnCall(0, 0), WaitCall(0, 0)];
    assert Upto(1) == [1];
    var t := Step(s, ops[0]);
    assert t.P(0).children == [1] && t.ready == [1] && t.P(1).status == Ready;
    assert ops[1..] == [WaitCall(0, 0)] && ops[1..][1..] == [];
    assert CanStep(t, WaitCall(0, 0));
    var u := Step(t, WaitCall(0, 0));
    assert u.running == 1 && u.Me().status == Ready;
    hide Step, CanStep;
    assert After(t, [WaitCall(0, 0)]) == After(u, []) == u;
  }
}
