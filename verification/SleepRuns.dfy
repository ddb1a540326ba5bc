/** How long a sleep lasts: the caller waits until the first schedule that takes place once its ticks have passed. */
module SleepRuns {
  import opened ProcessModel
  import opened ProcessInvariant
  import opened ProcessSteps
  import opened ExitValues
  import opened Scheduling
  import opened ProcessEffects
  import Initial

  /** Process b sleeps until the given time. */
  ghost predicate Asleep(s: State, b: int, wake: int) {
    b in s.waiting && Timer(wake, b) in s.timers
  }

  lemma InsertedKeeps(before: seq<Timer>, after: seq<Timer>, t: Timer)
    requires Inserted(before, after, t)
    ensures t in after && forall x :: x in before ==> x in after
  {
    var k: nat :| InsertedAt(before, after, t, k);
    assert forall x :: x in before ==> x in before[..k] || x in before[k..];
  }

  lemma SleepStarts(s: State, cycles: int)
    requires Inv(s) && s.running != NULL
    ensures CanStep(s, SleepCall(cycles)) && Inv(Step(s, SleepCall(cycles)))
    ensures Asleep(Step(s, SleepCall(cycles)), s.running, s.time + cycles)
    ensures Step(s, SleepCall(cycles)).time == s.time
  {
    SleepIsEntered(s, cycles);
    hide Inv, CanStep, Step, Inserted, Sorted;
    SleepNeverFails(s, cycles);
    InsertedKeeps(s.timers, Step(s, SleepCall(cycles)).timers, Timer(s.time + cycles, s.running));
    StepClock(s, SleepCall(cycles));
    StepKeepsInv(s, SleepCall(cycles));
  }

  // ---------- one step ----------

  /** The sleeper has one timer, and it is not blocked in a wait. */
  lemma SleeperIs(s: State, b: int, wake: int)
    requires Inv(s) && Asleep(s, b, wake)
    ensures s.P(b).callNum == 6 && b != s.running && HasTimer(s.timers, b)
    ensures forall i :: 0 <= i < |s.timers| && s.timers[i].pcb == b ==> s.timers[i].wake == wake
  {
    var i :| 0 <= i < |s.timers| && s.timers[i] == Timer(wake, b);
    Placed(s);
    assert InOnePlace(s, b);
  }

  lemma ScheduledSleeper(s: State, t: State, now: int, b: int, wake: int)
    requires Inv(s) && Asleep(s, b, wake) && Scheduled(s, t, now)
    ensures if wake <= now then b !in t.waiting else Asleep(t, b, wake)
  {
    SleeperIs(s, b, wake);
    var w: nat :| ScheduledAfter(s, t, now, w);
    DueOrNot(s.timers, b, wake, now, w);
    hide Inv, Pcbs, HasTimer;
  }

  lemma DueOrNot(timers: seq<Timer>, b: int, wake: int, now: int, w: nat)
    requires Timer(wake, b) in timers && w <= |timers|
    requires forall i :: 0 <= i < |timers| && timers[i].pcb == b ==> timers[i].wake == wake
    requires forall i :: 0 <= i < |timers| ==> (i < w <==> timers[i].wake <= now)
    ensures HasTimer(timers[..w], b) <==> wake <= now
    ensures now < wake ==> Timer(wake, b) in timers[w..]
  {
    var i :| 0 <= i < |timers| && timers[i] == Timer(wake, b);
    if i < w {
      assert timers[..w][i].pcb == b;
    } else {
      assert timers[w..][i - w] == timers[i];
      assert forall j :: 0 <= j < w ==> timers[..w][j] == timers[j];
    }
  }

  lemma SleepOfAnother(s: State, op: Op, b: int, wake: int)
    requires Inv(s) && CanStep(s, op) && op.SleepCall? && Asleep(s, b, wake)
    ensures Asleep(Step(s, op), b, wake)
  {
    hide Inv, CanStep, Step, Inserted, Sorted, Delivered, HeadRuns, SamePools;
    CallIs(s, op);
    StepLists(s, op);
    SleepNeverFails(s, op.cycles);
    InsertedKeeps(s.timers, Step(s, op).timers, Timer(s.time + op.cycles, s.running));
  }

  lemma ExitOfAnother(s: State, op: Op, b: int, wake: int)
    requires Inv(s) && CanStep(s, op) && op.ExitCall? && Asleep(s, b, wake)
    ensures Asleep(Step(s, op), b, wake)
  {
    hide Inv, CanStep, Step, Delivered, Without;
    StepLists(s, op);
    ExitDelivers(s, op.value);
    SleeperIs(s, b, wake);
    if Delivered(s, op) != [] {
      WithoutKeeps(s.waiting, s.Me().parent, Step(s, op).waiting, b);
    }
  }

  lemma CallOfAnother(s: State, op: Op, b: int, wake: int)
    requires Inv(s) && CanStep(s, op) && (op.SpawnCall? || op.WaitCall? || op.OtherCall?) && Asleep(s, b, wake)
    ensures Asleep(Step(s, op), b, wake)
  {
    hide Inv, CanStep, Step, Delivered, Without;
    StepLists(s, op);
  }

  /** Among all calls and ticks, exactly a schedule at the time of the timer or later ends the sleep. */
  lemma StepEndsSleepIff(s: State, op: Op, b: int, wake: int)
    requires Inv(s) && CanStep(s, op) && Asleep(s, b, wake)
    ensures if IsSchedule(op) && wake <= Step(s, op).time then b !in Step(s, op).waiting
            else Asleep(Step(s, op), b, wake)
  {
    hide Inv, CanStep, Step, Delivered, Asleep, Scheduled;
    StepClock(s, op);
    match op
    case Tick =>
      StepLists(s, op);
      ScheduledSleeper(s, Step(s, op), s.time + 1, b, wake);
    case Preempt =>
      StepLists(s, op);
      ScheduledSleeper(s, Step(s, op), s.time, b, wake);
    case SleepCall(_) => SleepOfAnother(s, op, b, wake);
    case ExitCall(_) => ExitOfAnother(s, op, b, wake);
    case SpawnCall(_, _) => CallOfAnother(s, op, b, wake);
    case WaitCall(_, _) => CallOfAnother(s, op, b, wake);
    case OtherCall(_, _, _, _, _) => CallOfAnother(s, op, b, wake);
  }

  // ---------- runs ----------

  function Ticks(ops: seq<Op>): nat {
    if ops == [] then 0 else (if ops[0].Tick? then 1 else 0) + Ticks(ops[1..])
  }

  /** Some schedule of the run takes place when at least this many ticks have passed, its own included. */
  ghost predicate ScheduledAfterTicks(ops: seq<Op>, cycles: int) {
    exists i :: 0 <= i < |ops| && IsSchedule(ops[i]) && Ticks(ops[..i + 1]) >= cycles
  }

  lemma TicksTail(ops: seq<Op>, i: nat)
    requires i < |ops|
    ensures Ticks(ops[..i + 1]) == (if ops[0].Tick? then 1 else 0) + Ticks(ops[1..][..i])
  {
    assert ops[..i + 1][1..] == ops[1..][..i];
  }

  /** The first operation is such a schedule, or one of the others is. */
  lemma ScheduledSplit(ops: seq<Op>, cycles: int)
    requires ops != []
    ensures var first := if ops[0].Tick? then 1 else 0;
            ScheduledAfterTicks(ops, cycles) <==>
              (IsSchedule(ops[0]) && first >= cycles) || ScheduledAfterTicks(ops[1..], cycles - first)
  {
    var first := if ops[0].Tick? then 1 else 0;
    TicksTail(ops, 0);
    if ScheduledAfterTicks(ops, cycles) {
      var i :| 0 <= i < |ops| && IsSchedule(ops[i]) && Ticks(ops[..i + 1]) >= cycles;
      TicksTail(ops, i);
      if i > 0 { assert IsSchedule(ops[1..][i - 1]) && Ticks(ops[1..][..i - 1 + 1]) >= cycles - first; }
    }
    if ScheduledAfterTicks(ops[1..], cycles - first) {
      var i :| 0 <= i < |ops[1..]| && IsSchedule(ops[1..][i]) && Ticks(ops[1..][..i + 1]) >= cycles - first;
      TicksTail(ops, i + 1);
    }
    if IsSchedule(ops[0]) && first >= cycles { assert Ticks(ops[..0 + 1]) >= cycles; }
  }

  /** Process b waits in every state of the run. */
  predicate WaitsThroughout(s: State, ops: seq<Op>, b: int)
    requires ValidRun(s, ops)
    decreases |ops|
  {
    b in s.waiting && (ops != [] ==> WaitsThroughout(Step(s, ops[0]), ops[1..], b))
  }

  lemma {:induction false} AsleepRun(s: State, ops: seq<Op>, b: int, wake: int)
    requires Inv(s) && ValidRun(s, ops) && Asleep(s, b, wake)
    ensures WaitsThroughout(s, ops, b) <==> !ScheduledAfterTicks(ops, wake - s.time)
    ensures !ScheduledAfterTicks(ops, wake - s.time) ==> Asleep(After(s, ops), b, wake)
    decreases |ops|
  {
    if ops != [] {
      var t := Step(s, ops[0]);
      hide Inv, CanStep, Step, ScheduledAfterTicks;
      StepKeepsInv(s, ops[0]);
      StepClock(s, ops[0]);
      StepEndsSleepIff(s, ops[0], b, wake);
      ScheduledSplit(ops, wake - s.time);
      if Asleep(t, b, wake) {
        AsleepRun(t, ops[1..], b, wake);
      }
    }
  }

  /** A process that asks for a number of ticks waits in every state of a continuation if and only if no schedule of
      the continuation takes place once that many of its ticks have passed. */
  lemma SleepLasts(s: State, cycles: int, ops: seq<Op>)
    requires Inv(s) && CanStep(s, SleepCall(cycles)) && ValidRun(Step(s, SleepCall(cycles)), ops)
    ensures WaitsThroughout(Step(s, SleepCall(cycles)), ops, s.running) <==> !ScheduledAfterTicks(ops, cycles)
  {
    hide *;
    CallIs(s, SleepCall(cycles));
    SleepStarts(s, cycles);
    AsleepRun(Step(s, SleepCall(cycles)), ops, s.running, s.time + cycles);
  }

  // ---------- at the end of a run ----------

  /** Process b makes no call that may block it. */
  predicate BlocksNoMore(s: State, ops: seq<Op>, b: int)
    requires ValidRun(s, ops)
    decreases |ops|
  {
    ops != [] ==>
      !(s.running == b && (ops[0].SleepCall? || ops[0].WaitCall?)) && BlocksNoMore(Step(s, ops[0]), ops[1..], b)
  }

  lemma WithoutIn(list: seq<int>, x: int, r: seq<int>, b: int)
    requires Without(list, x, r) && b in r
    ensures b in list
  {
  }

  /** A process starts to wait only by a call of its own. */
  lemma StartsToWait(s: State, op: Op, b: int)
    requires Inv(s) && CanStep(s, op) && b !in s.waiting && b in Step(s, op).waiting
    ensures s.running == b && (op.SleepCall? || op.WaitCall?)
  {
    StepLists(s, op);
    hide Inv, CanStep, Step, Delivered, Without, HeadRuns, HasTimer, Pcbs;
    if op.ExitCall? && Delivered(s, op) != [] {
      WithoutIn(s.waiting, s.Me().parent, Step(s, op).waiting, b);
    }
  }

  lemma {:induction false} AwakeRun(s: State, ops: seq<Op>, b: int)
    requires Inv(s) && ValidRun(s, ops) && b !in s.waiting && BlocksNoMore(s, ops, b)
    ensures b !in After(s, ops).waiting
    decreases |ops|
  {
    if ops != [] {
      hide Inv, CanStep, Step;
      StepKeepsInv(s, ops[0]);
      if b in Step(s, ops[0]).waiting {
        StartsToWait(s, ops[0], b);
      }
      AwakeRun(Step(s, ops[0]), ops[1..], b);
    }
  }

  lemma {:induction false} WakesForGood(s: State, ops: seq<Op>, b: int)
    requires Inv(s) && ValidRun(s, ops) && BlocksNoMore(s, ops, b)
    ensures b in After(s, ops).waiting ==> WaitsThroughout(s, ops, b)
    decreases |ops|
  {
    hide Inv, CanStep, Step;
    if b !in s.waiting {
      AwakeRun(s, ops, b);
    } else if ops != [] {
      StepKeepsInv(s, ops[0]);
      WakesForGood(Step(s, ops[0]), ops[1..], b);
    }
  }

  lemma {:induction false} WaitsAtEnd(s: State, ops: seq<Op>, b: int)
    requires ValidRun(s, ops) && WaitsThroughout(s, ops, b)
    ensures b in After(s, ops).waiting
    decreases |ops|
  {
    hide CanStep, Step;
    if ops != [] {
      WaitsAtEnd(Step(s, ops[0]), ops[1..], b);
    }
  }

  /** If the process does not block again, it waits at the end of the continuation if and only if no schedule took
      place once the ticks that it asked for had passed. */
  lemma WakesOnTime(s: State, cycles: int, ops: seq<Op>)
    requires Inv(s) && CanStep(s, SleepCall(cycles)) && ValidRun(Step(s, SleepCall(cycles)), ops)
    requires BlocksNoMore(Step(s, SleepCall(cycles)), ops, s.running)
    ensures s.running in After(Step(s, SleepCall(cycles)), ops).waiting <==> !ScheduledAfterTicks(ops, cycles)
  {
    var t, b := Step(s, SleepCall(cycles)), s.running;
    hide Inv, CanStep, Step, ScheduledAfterTicks, WaitsThroughout, BlocksNoMore, ValidRun, After;
    SleepLasts(s, cycles, ops);
    StepKeepsInv(s, SleepCall(cycles));
    WakesForGood(t, ops, b);
    if WaitsThroughout(t, ops, b) { WaitsAtEnd(t, ops, b); }
  }

  /** The two processes of the example, after the first has spawned the second. */
  const Spawned := State(0, 2, 0, 0, [1], [], [], [], [], 1,
                         [Proc(0, 0, Running, NULL, [1], NULL, 5, 0, 0, 1), Proc(1, 0, Ready, 0, [], NULL, 0, 0, 0, 0)],
                         map[])

  lemma SecondSpawned()
    ensures CanStep(Boot(2), SpawnCall(0, 0)) && Step(Boot(2), SpawnCall(0, 0)) == Spawned
  {
    var t := Step(Boot(2), SpawnCall(0, 0));
    assert Upto(1) == [1];
    assert t.P(0).children == [1] && t.free == [] && t.ready == [1];
    assert t.procs == Spawned.procs;
  }

  lemma FirstWoken()
    ensures CanStep(Spawned, SleepCall(1)) && CanStep(Step(Spawned, SleepCall(1)), Tick)
    ensures Step(Step(Spawned, SleepCall(1)), Tick).running == 0
  {
    var t := Step(Spawned, SleepCall(1));
    assert t.timers == [Timer(1, 0)] && t.waiting == [0] && t.ready == [] && t.running == 1;
    var a := Advance(t);
    var u := WakeOne(a, 0);
    assert u.ready == [0] && u.timers == [] && u.running == 1;
    assert WakeElapsed(a, 0) == WakeElapsed(u, 1) == u;
  }

  /** Without that condition it does not hold of the end: after a schedule a tick later the process may sleep again. */
  lemma SleepsAgain()
    ensures CanStep(Boot(2), SpawnCall(0, 0)) && Step(Boot(2), SpawnCall(0, 0)) == Spawned && Spawned.running == 0
    ensures CanStep(Spawned, SleepCall(1)) && ValidRun(Step(Spawned, SleepCall(1)), [Tick, SleepCall(1)])
    ensures ScheduledAfterTicks([Tick, SleepCall(1)], 1)
    ensures 0 in After(Step(Spawned, SleepCall(1)), [Tick, SleepCall(1)]).waiting
  {
    hide *;
    SecondSpawned();
    FirstWoken();
    var t := Step(Spawned, SleepCall(1));
    TickIsDue();
    Initial.BootInv(2);
    StepKeepsInv(Boot(2), SpawnCall(0, 0));
    FirstRuns();
    StepKeepsInv(Spawned, SleepCall(1));
    StepKeepsInv(t, Tick);
    SomeoneRuns(Step(t, Tick));
    SleepStarts(Step(t, Tick), 1);
    AsleepWaits(Step(Step(t, Tick), SleepCall(1)), 0, Step(t, Tick).time + 1);
    TwoSteps(t, Tick, SleepCall(1));
  }

  lemma TickIsDue()
    ensures ScheduledAfterTicks([Tick, SleepCall(1)], 1)
  {
    var ops := [Tick, SleepCall(1)];
    assert ops[..0 + 1] == [Tick] && IsSchedule(ops[0]) && Ticks(ops[..0 + 1]) >= 1;
  }

  lemma FirstRuns()
    ensures Spawned.running == 0
  {
  }

  lemma SomeoneRuns(s: State)
    requires s.running == 0
    ensures s.running != NULL
  {
  }

  lemma AsleepWaits(s: State, b: int, wake: int)
    requires Asleep(s, b, wake)
    ensures b in s.waiting
  {
  }

  lemma TwoSteps(s: State, first: Op, second: Op)
    requires CanStep(s, first) && CanStep(Step(s, first), second)
    ensures ValidRun(s, [first, second]) && After(s, [first, second]) == Step(Step(s, first), second)
  {
    hide CanStep, Step;
    var u := Step(Step(s, first), second);
    assert [first, second][1..] == [second] && [second][1..] == [];
    assert ValidRun(u, []) && After(u, []) == u;
    assert ValidRun(Step(s, first), [second]) && After(Step(s, first), [second]) == u;
  }
}
