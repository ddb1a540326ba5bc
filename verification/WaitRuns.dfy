/** What a wait that blocks brings its caller: the end of a child, at the place that the wait named. */
module WaitRuns {
  import opened ProcessModel
  import opened ProcessInvariant
  import opened ProcessSteps
  import opened ExitValues
  import opened Scheduling
  import opened ProcessEffects
  import opened SleepRuns
  import Initial

  /** Process b is blocked in this wait. */
  ghost predicate Blocked(s: State, b: int, pid: int, result: int) {
    b in s.waiting && Registers(s.P(b), 3, pid, result)
  }

  lemma BlockedIs(s: State, b: int, pid: int, result: int)
    requires Inv(s) && Blocked(s, b, pid, result)
    ensures b != s.running && !HasTimer(s.timers, b)
  {
    Placed(s);
    assert InOnePlace(s, b);
  }

  /** The step reports to b the end of a child that its wait asked for, and b runs. */
  ghost predicate Reported(s: State, op: Op, b: int, pid: int, result: int)
    requires CanStep(s, op)
  {
    && op.ExitCall? && Delivered(s, op) == [Delivery(b, s.Me().pid, op.value)]
    && (pid != 0 ==> s.Me().pid == pid) && s.running in s.P(b).children
    && var t := Step(s, op);
       && t.running == b && t.P(b).callResult == s.Me().pid
       && (result != 0 ==> result in t.memory && t.memory[result] == op.value)
  }

  lemma ScheduleLeavesBlocked(s: State, t: State, now: int, b: int)
    requires Scheduled(s, t, now) && b in s.waiting && !HasTimer(s.timers, b)
    ensures b in t.waiting
  {
    var w: nat :| ScheduledAfter(s, t, now, w);
    FewerTimers(s.timers, w, b);
    hide HasTimer, Pcbs;
  }

  lemma FewerTimers(timers: seq<Timer>, w: nat, b: int)
    requires w <= |timers| && !HasTimer(timers, b)
    ensures !HasTimer(timers[..w], b)
  {
    assert forall j :: 0 <= j < w ==> timers[..w][j] == timers[j];
  }

  /** What takes b out of the waiting processes is the exit of a process whose parent is b. */
  lemma LeavesByExit(s: State, op: Op, b: int, pid: int, result: int)
    requires Inv(s) && CanStep(s, op) && Blocked(s, b, pid, result) && b !in Step(s, op).waiting
    ensures op.ExitCall? && Delivered(s, op) != [] && s.Me().parent == b
  {
    hide Inv, CanStep, Step, Delivered, Without, Scheduled, HeadRuns, HasTimer;
    BlockedIs(s, b, pid, result);
    StepLists(s, op);
    if op.Tick? {
      ScheduleLeavesBlocked(s, Step(s, op), s.time + 1, b);
    } else if op.Preempt? {
      ScheduleLeavesBlocked(s, Step(s, op), s.time, b);
    } else if op.ExitCall? && Delivered(s, op) != [] && s.Me().parent != b {
      WithoutKeeps(s.waiting, s.Me().parent, Step(s, op).waiting, b);
    }
  }

  lemma ExitReported(s: State, op: Op, b: int, pid: int, result: int)
    requires Inv(s) && CanStep(s, op) && Blocked(s, b, pid, result)
    requires op.ExitCall? && Delivered(s, op) != [] && s.Me().parent == b
    ensures Reported(s, op, b, pid, result)
  {
    NothingDelivered(s, op);
    hide Inv, CanStep, Step, Delivered, Leaver, Entered, Die, Adopt, ParentWaits;
    ExitDelivers(s, op.value);
    DeliveryReceived(s, op);
    SameRunner(s, op);
  }

  lemma SameRunner(s: State, op: Op)
    ensures Entered(s, op).running == s.running
  {
  }

  lemma StillBlocked(s: State, op: Op, b: int, pid: int, result: int)
    requires Inv(s) && CanStep(s, op) && Blocked(s, b, pid, result) && b in Step(s, op).waiting
    ensures Blocked(Step(s, op), b, pid, result)
  {
    hide Inv, CanStep, Step, Delivered, ResultAfter, ExitValueAfter, IdentityAfter, ChildrenAfter, MemoryAfter;
    BlockedIs(s, b, pid, result);
    StepRecord(s, op, b);
  }

  /** The first step of the run that takes b out of the waiting processes reports to it as its wait asked. */
  ghost predicate ReportedFirst(s: State, ops: seq<Op>, b: int, pid: int, result: int)
    requires ValidRun(s, ops)
    decreases |ops|
  {
    ops != [] &&
      if b in Step(s, ops[0]).waiting then ReportedFirst(Step(s, ops[0]), ops[1..], b, pid, result)
      else Reported(s, ops[0], b, pid, result)
  }

  lemma {:induction false} BlockedRun(s: State, ops: seq<Op>, b: int, pid: int, result: int)
    requires Inv(s) && ValidRun(s, ops) && Blocked(s, b, pid, result)
    ensures WaitsThroughout(s, ops, b) || ReportedFirst(s, ops, b, pid, result)
    decreases |ops|
  {
    if ops != [] {
      var op := ops[0];
      hide Inv, CanStep, Step, Reported, Blocked;
      BlockedWaits(s, b, pid, result);
      if b in Step(s, op).waiting {
        StepKeepsInv(s, op);
        StillBlocked(s, op, b, pid, result);
        BlockedRun(Step(s, op), ops[1..], b, pid, result);
      } else {
        LeavesByExit(s, op, b, pid, result);
        ExitReported(s, op, b, pid, result);
      }
    }
  }

  lemma BlockedWaits(s: State, b: int, pid: int, result: int)
    requires Blocked(s, b, pid, result)
    ensures b in s.waiting
  {
  }

  lemma WaitBlocked(s: State, pid: int, result: int)
    requires Inv(s) && CanStep(s, WaitCall(pid, result)) && s.running in Step(s, WaitCall(pid, result)).waiting
    ensures Blocked(Step(s, WaitCall(pid, result)), s.running, pid, result)
  {
    hide Inv, CanStep, Step, Delivered, ResultAfter, ExitValueAfter, IdentityAfter, ChildrenAfter, MemoryAfter;
    StepRecord(s, WaitCall(pid, result), s.running);
  }

  lemma RunnerWaitsNot(s: State, b: int)
    requires Inv(s) && b in s.waiting
    ensures s.running != b
  {
    Placed(s);
    assert InOnePlace(s, b);
  }

  /** A wait that blocks: when its caller runs again, the first thing that happened to it was the end of a child, the
      one asked for if one was, whose pid and value it finds in its result and at the address of that wait. */
  lemma BlockedWaitReceives(s: State, pid: int, result: int, ops: seq<Op>)
    requires Inv(s) && CanStep(s, WaitCall(pid, result)) && s.running in Step(s, WaitCall(pid, result)).waiting
    requires ValidRun(Step(s, WaitCall(pid, result)), ops)
    requires After(Step(s, WaitCall(pid, result)), ops).running == s.running
    ensures ReportedFirst(Step(s, WaitCall(pid, result)), ops, s.running, pid, result)
  {
    hide *;
    var t := Step(s, WaitCall(pid, result));
    WaitBlocked(s, pid, result);
    StepKeepsInv(s, WaitCall(pid, result));
    BlockedRun(t, ops, s.running, pid, result);
    if WaitsThroughout(t, ops, s.running) {
      WaitsAtEnd(t, ops, s.running);
      RunKeepsInv(t, ops);
      RunnerWaitsNot(After(t, ops), s.running);
    }
  }

  // ---------- what the result of a wait says ----------

  /** Pids count from 0. */
  ghost predicate Counted(s: State) {
    s.lastPid >= 0 && forall b :: s.P(b).pid >= 0
  }

  lemma StepCounted(s: State, op: Op)
    requires Inv(s) && CanStep(s, op) && Counted(s)
    ensures Counted(Step(s, op))
  {
    hide Inv, CanStep, Step, Delivered, RegistersAfter, ResultAfter, ExitValueAfter, ChildrenAfter, MemoryAfter;
    StepClock(s, op);
    forall b ensures Step(s, op).P(b).pid >= 0 {
      StepRecord(s, op, b);
    }
  }

  lemma {:induction false} RunCounted(s: State, ops: seq<Op>)
    requires Inv(s) && ValidRun(s, ops) && Counted(s)
    ensures Inv(After(s, ops)) && Counted(After(s, ops))
    decreases |ops|
  {
    if ops != [] {
      hide Inv, CanStep, Step, Counted;
      StepKeepsInv(s, ops[0]);
      StepCounted(s, ops[0]);
      RunCounted(Step(s, ops[0]), ops[1..]);
    }
  }

  lemma ReportCounted(s: State, op: Op)
    requires CanStep(s, op) && Counted(s) && Inv(s) && op.WaitCall? && Delivered(s, op) != []
    ensures Delivered(s, op)[0].pid >= 0 && Delivered(s, op)[0].parent == s.running
  {
    hide Inv, CanStep, Step, Chosen;
    WaitDelivers(s, op.pid, op.result);
  }

  /** From the start of the system: a wait after which its caller runs on answers 0 or more if and only if it reports
      the end of a process, which then is the answer. */
  lemma WaitAnswers(n: nat, ops: seq<Op>, pid: int, result: int)
    requires n > 0 && ValidRun(Boot(n), ops) && CanStep(After(Boot(n), ops), WaitCall(pid, result))
    ensures var s, op := After(Boot(n), ops), WaitCall(pid, result);
            var t := Step(s, op);
            t.running == s.running ==>
              && (t.Me().callResult >= 0 <==> Delivered(s, op) != [])
              && (Delivered(s, op) != [] ==> t.Me().callResult == Delivered(s, op)[0].pid)
              && (Delivered(s, op) == [] ==> t.Me().callResult == -5)
  {
    hide *;
    Initial.BootInv(n);
    BootCounted(n);
    RunCounted(Boot(n), ops);
    var s, op := After(Boot(n), ops), WaitCall(pid, result);
    if Step(s, op).running == s.running {
      AnswerCounted(s, op);
    }
  }

  lemma BootCounted(n: nat)
    requires n > 0
    ensures Counted(Boot(n))
  {
  }

  lemma AnswerCounted(s: State, op: Op)
    requires Inv(s) && Counted(s) && CanStep(s, op) && op.WaitCall? && Step(s, op).running == s.running
    ensures var r := Step(s, op).Me().callResult;
            && (r >= 0 <==> Delivered(s, op) != [])
            && (Delivered(s, op) != [] ==> r == Delivered(s, op)[0].pid)
            && (Delivered(s, op) == [] ==> r == -5)
  {
    StepLists(s, op);
    StepRecord(s, op, s.running);
    StepKeepsInv(s, op);
    if Delivered(s, op) != [] { ReportCounted(s, op); }
    hide Inv, CanStep, Step, Delivered, RegistersAfter, ExitValueAfter, IdentityAfter, ChildrenAfter, MemoryAfter,
      Freed, Without, HeadRuns, SamePools, Counted;
    if s.running in Step(s, op).waiting { RunnerWaitsNot(Step(s, op), s.running); }
  }
}
