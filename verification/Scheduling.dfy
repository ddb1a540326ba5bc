/** What one schedule does as a whole, and how long a ready process can wait. */
module Scheduling {
  import opened Sequences
  import opened ProcessModel
  import opened ProcessInvariant
  import opened ProcessSteps

  function Pcbs(timers: seq<Timer>): (r: seq<int>)
    ensures |r| == |timers| && forall i :: 0 <= i < |r| ==> r[i] == timers[i].pcb
  {
    if timers == [] then [] else [timers[0].pcb] + Pcbs(timers[1..])
  }

  /** The number of timers that a schedule at this time removes. */
  function Due(s: State): (w: nat)
    ensures w <= |s.timers|
  {
    Slot(s.timers, s.time)
  }

  lemma {:induction false} WakeElapsedTimers(s: State, k: nat)
    requires k <= |s.ready|
    ensures WakeElapsed(s, k).timers == s.timers[Due(s)..]
    ensures WakeElapsed(s, k).running == s.running && WakeElapsed(s, k).time == s.time
    decreases |s.timers|
  {
    if Elapsed(s) {
      WakeElapsedTimers(WakeOne(s, k), k + 1);
    }
  }

  /** One turn of the wake-up loop. */
  lemma WakeStep(s: State, k: nat)
    requires Elapsed(s) && k <= |s.ready|
    ensures s.timers != [] && WakeElapsed(s, k) == WakeElapsed(WakeOne(s, k), k + 1)
    ensures WakeOne(s, k).ready == InsertAt(s.ready, k, s.timers[0].pcb)
    ensures WakeOne(s, k).waiting == Remove(s.waiting, s.timers[0].pcb)
    ensures |WakeOne(s, k).timers| < |s.timers|
    ensures s.timers[..Due(s)] == [s.timers[0]] + WakeOne(s, k).timers[..Due(WakeOne(s, k))]
  {
    hide Remove, InsertAt;
    assert Due(s) == 1 + Due(WakeOne(s, k));
  }

  lemma WakeNone(s: State, k: nat)
    requires !Elapsed(s) && k <= |s.ready|
    ensures WakeElapsed(s, k) == s && s.timers[..Due(s)] == []
  {
  }

  lemma PcbsHead(t: Timer, rest: seq<Timer>)
    ensures Pcbs([t] + rest) == [t.pcb] + Pcbs(rest)
  {
    assert ([t] + rest)[1..] == rest;
  }

  lemma {:induction false} WakeElapsedReady(s: State, front: seq<int>, back: seq<int>)
    requires s.ready == front + back
    ensures WakeElapsed(s, |front|).ready == front + Pcbs(s.timers[..Due(s)]) + back
    decreases |s.timers|
  {
    hide WakeElapsed, WakeOne, Due, InsertAt;
    if Elapsed(s) {
      var b, u := s.timers[0].pcb, WakeOne(s, |front|);
      WakeStep(s, |front|);
      InsertBetween(front, back, b);
      WakeElapsedReady(u, front + [b], back);
      PcbsHead(s.timers[0], u.timers[..Due(u)]);
      Regroup(front, b, Pcbs(u.timers[..Due(u)]), back);
    } else {
      WakeNone(s, |front|);
      assert front + [] + back == front + back;
    }
  }

  lemma {:induction false} WakeElapsedWaiting(s: State, k: nat)
    requires k <= |s.ready| && Distinct(s.waiting)
    ensures forall b :: b in WakeElapsed(s, k).waiting <==>
                        b in s.waiting && !HasTimer(s.timers[..Due(s)], b)
    decreases |s.timers|
  {
    hide WakeElapsed, WakeOne, Due, InsertAt, Remove, Distinct;
    if Elapsed(s) {
      var u, t := WakeOne(s, k), s.timers[0];
      WakeStep(s, k);
      RemoveMembers(s.waiting, t.pcb);
      RemoveDistinct(s.waiting, t.pcb);
      WakeElapsedWaiting(u, k + 1);
      HasTimerSplit(t, u.timers[..Due(u)]);
    } else {
      WakeNone(s, k);
    }
  }

  lemma HasTimerSplit(t: Timer, timers: seq<Timer>)
    ensures forall b :: HasTimer([t] + timers, b) <==> b == t.pcb || HasTimer(timers, b)
  {
    var all := [t] + timers;
    assert all[0] == t;
    forall b | HasTimer(timers, b) ensures HasTimer(all, b) {
      var i :| 0 <= i < |timers| && timers[i].pcb == b;
      assert all[i + 1].pcb == b;
    }
  }

  /** The processes that a schedule wakes, in timer order, and then the ready list. */
  function Queue(s: State): seq<int> {
    Pcbs(s.timers[..Due(s)]) + s.ready
  }

  lemma WakeElapsedQueue(s: State)
    ensures WakeElapsed(s, 0).ready == Queue(s)
  {
    var none: seq<int>, woken := [], Pcbs(s.timers[..Due(s)]);
    assert none + s.ready == s.ready && none + woken == woken;
    WakeElapsedReady(s, none, s.ready);
  }

  lemma WakeElapsedForm(s: State)
    requires Distinct(s.waiting)
    ensures var r := WakeElapsed(s, 0);
            && r.timers == s.timers[Due(s)..] && r.ready == Queue(s) && r.running == s.running
            && forall b :: b in r.waiting <==> b in s.waiting && !HasTimer(s.timers[..Due(s)], b)
  {
    WakeElapsedTimers(s, 0);
    WakeElapsedQueue(s);
    WakeElapsedWaiting(s, 0);
  }

  /** Schedule in one piece: the timers that are due, no others, are gone; their owners, no others,
      leave the waiting list and stand in front of the ready list; the head of that queue runs and
      the process that ran goes to the end. */
  lemma ScheduleRefines(s: State)
    requires Inv(s) && s.running != NULL
    ensures Schedule(s).timers == s.timers[Due(s)..]
    ensures forall i :: 0 <= i < |s.timers| ==> (i < Due(s) <==> s.timers[i].wake <= s.time)
    ensures forall b :: b in Schedule(s).waiting <==> b in s.waiting && !HasTimer(s.timers[..Due(s)], b)
    ensures if Queue(s) == [] then Schedule(s).running == s.running && Schedule(s).ready == []
            else Schedule(s).running == Queue(s)[0] && Schedule(s).ready == Queue(s)[1..] + [s.running]
  {
    SlotSplits(s.timers, s.time);
    Placed(s);
    WakeElapsedForm(s);
    RotateFields(WakeElapsed(s, 0));
  }

  lemma RotateFields(s: State)
    ensures Rotate(s).timers == s.timers && Rotate(s).waiting == s.waiting
    ensures if s.ready == [] then Rotate(s) == s
            else Rotate(s).running == s.ready[0] && Rotate(s).ready == s.ready[1..] + [s.running]
  {
  }

  /** A process asleep is woken by a schedule exactly when its time has come. */
  lemma WokenOnTime(s: State, i: nat)
    requires Inv(s) && s.running != NULL && i < |s.timers|
    ensures s.timers[i].pcb !in Schedule(s).waiting <==> s.timers[i].wake <= s.time
  {
    ScheduleRefines(s);
    var b, w := s.timers[i].pcb, Due(s);
    if i < w {
      assert s.timers[..w][i].pcb == b;
    }
  }

  // ---------- bounded waiting ----------

  /** The number of schedules that can pass before a ready process runs. */
  function Rank(s: State, a: int): nat {
    IndexOf(s.ready, a) + |s.timers|
  }

  lemma InvPlaced(s: State)
    requires Inv(s)
    ensures Distinct(s.ready)
  {
    Placed(s);
  }

  lemma ScheduleRank(s: State, a: int)
    requires Inv(s) && s.running != NULL && a in s.ready
    ensures Schedule(s).running == a || (a in Schedule(s).ready && Rank(Schedule(s), a) == Rank(s, a) - 1)
  {
    hide Inv, Schedule, Partition;
    ScheduleRefines(s);
    ScheduleKeepsInv(s);
    InvPlaced(Schedule(s));
    var r, w, i := Schedule(s), Due(s), IndexOf(s.ready, a);
    if w + i > 0 {
      assert r.ready[w + i - 1] == a;
      IndexIs(r.ready, w + i - 1, a);
    }
  }

  predicate IsSchedule(op: Op) {
    op.Tick? || op.Preempt?
  }

  /** No step overtakes a ready process for free: it runs, or its rank drops by one at a schedule and
      does not rise at any other call. */
  ghost predicate Advances(s: State, t: State, a: int, scheduled: bool) {
    || t.running == a
    || (a in t.ready && Rank(t, a) <= Rank(s, a) - (if scheduled then 1 else 0)
                     && (scheduled ==> Rank(t, a) == Rank(s, a) - 1))
  }

  /** The head of the ready list was taken. */
  lemma IndexTail(s: seq<int>, a: int)
    requires a in s && s[0] != a
    ensures a in s[1..] && IndexOf(s[1..], a) == IndexOf(s, a) - 1
  {
  }

  lemma NextRank(s: State, a: int)
    requires a in s.ready
    ensures Next(s).running == a || (a in Next(s).ready && Rank(Next(s), a) == Rank(s, a) - 1)
  {
    if s.ready[0] != a {
      IndexTail(s.ready, a);
    }
  }

  lemma HandOverRank(s: State)
    requires Inv(s) && s.running != NULL && CanExit(s) && ParentWaits(Die(Adopt(s)))
    ensures Exit(s).ready == s.ready && Exit(s).timers == s.timers
  {
    var d := Die(Adopt(s));
    DieFields(s);
    ParentIsListed(s, d);
    HandOverFields(s, d);
    HandOverSleepers(s, Exit(s));
  }

  lemma ExitRank(s: State, a: int)
    requires Inv(s) && s.running != NULL && CanExit(s) && a in s.ready
    ensures Advances(s, Exit(s), a, false)
  {
    assert Partition(s);
    hide Inv, Adopt, Die, HandOver, Partition, Dispatch;
    if ParentWaits(Die(Adopt(s))) {
      HandOverRank(s);
    } else {
      DieFields(s);
      var d := Die(Adopt(s));
      assert d.ready == s.ready && d.timers == s.timers;
      DispatchRank(d, a);
    }
  }

  lemma DispatchRank(s: State, a: int)
    requires a in s.ready
    ensures Advances(s, Dispatch(s), a, false)
  {
    if s.ready[0] != a {
      IndexTail(s.ready, a);
    }
  }

  lemma SleepRank(s: State, a: int)
    requires a in s.ready
    ensures Advances(s, Sleep(s), a, false)
  {
    var t := Timer(s.time + s.Me().arg0, s.running);
    NextRank(Block(s.(timers := AddTimer(s.timers, t))), a);
  }

  lemma WaitRank(s: State, a: int)
    requires a in s.ready
    ensures Advances(s, Wait(s), a, false)
  {
    NextRank(Block(s), a);
  }

  lemma SpawnRank(s: State, a: int)
    requires a in s.ready && CanSpawn(s)
    ensures Advances(s, Spawn(s), a, false)
  {
    IndexAppended(s.ready, [s.free[0]], a);
  }

  lemma StepScheduleAdvances(s: State, op: Op, a: int)
    requires Inv(s) && CanStep(s, op) && a in s.ready && IsSchedule(op)
    ensures Advances(s, Step(s, op), a, true)
  {
    if op.Tick? {
      RegistersKeepInv(s, Advance(s));
      ScheduleRank(Advance(s), a);
    } else {
      EnteredKeepsInv(s, op);
      ScheduleRank(Entered(s, op), a);
    }
  }

  lemma EnteredRank(s: State, op: Op, a: int)
    requires CanStep(s, op)
    ensures Entered(s, op).ready == s.ready && Rank(Entered(s, op), a) == Rank(s, a)
    ensures op.OtherCall? ==> Step(s, op).ready == s.ready && Rank(Step(s, op), a) == Rank(s, a)
  {
  }

  lemma StepAdvances(s: State, op: Op, a: int)
    requires Inv(s) && CanStep(s, op) && a in s.ready
    ensures Advances(s, Step(s, op), a, IsSchedule(op))
  {
    if IsSchedule(op) {
      StepScheduleAdvances(s, op, a);
    } else {
      EnteredKeepsInv(s, op);
      CallIs(s, op);
      EnteredRank(s, op, a);
      var e := Entered(s, op);
      hide Inv, Step, CanStep, Entered, Spawn, Sleep, Wait, Exit, CanSpawn, CanExit, OnlyRegisters, Rank;
      if op.SpawnCall? {
        SpawnRank(e, a);
      } else if op.SleepCall? {
        SleepRank(e, a);
      } else if op.WaitCall? {
        WaitRank(e, a);
      } else if op.ExitCall? {
        ExitRank(e, a);
      }
    }
  }

  function Schedules(ops: seq<Op>): nat {
    if ops == [] then 0 else (if IsSchedule(ops[0]) then 1 else 0) + Schedules(ops[1..])
  }

  /** Process a is running after some step of the run. */
  ghost predicate GetsToRun(s: State, ops: seq<Op>, a: int)
    requires ValidRun(s, ops)
    decreases |ops|
  {
    ops != [] && (Step(s, ops[0]).running == a || GetsToRun(Step(s, ops[0]), ops[1..], a))
  }

  /** Whatever the other processes do, a ready process runs before `Rank` + 1 schedules have passed. */
  lemma {:induction false} BoundedWaiting(s: State, ops: seq<Op>, a: int)
    requires Inv(s) && ValidRun(s, ops) && a in s.ready && Rank(s, a) < Schedules(ops)
    ensures GetsToRun(s, ops, a)
    decreases |ops|
  {
    StepKeepsInv(s, ops[0]);
    StepAdvances(s, ops[0], a);
    if Step(s, ops[0]).running != a {
      BoundedWaiting(Step(s, ops[0]), ops[1..], a);
    }
  }

  // ---------- sleep never fails ----------

  function Numbers(n: nat): (r: set<int>)
    ensures |r| == n && forall b :: b in r <==> 0 <= b < n
  {
    if n == 0 then {} else Numbers(n - 1) + {n - 1}
  }

  /** Distinct members of a set are no more than the set has. */
  lemma {:induction false} DistinctFits(s: seq<int>, all: set<int>)
    requires Distinct(s) && forall x :: x in s ==> x in all
    ensures |s| <= |all|
  {
    if s != [] {
      var x: int := s[0];
      var rest := all - {x};
      assert x in s;
      forall y | y in s[1..] ensures y in rest { TailApart(s, y); }
      DistinctFits(s[1..], rest);
      assert |rest| == |all| - 1;
    }
  }

  /** The timer pool, as large as the PCB pool, has a free block whenever a process runs. */
  lemma TimerPoolSuffices(s: State)
    requires Inv(s) && s.running != NULL
    ensures |s.timers| < |s.procs|
  {
    var owners, others := Pcbs(s.timers), Numbers(|s.procs|) - {s.running};
    Placed(s);
    assert InOnePlace(s, s.running);
    forall x | x in owners ensures x in others {
      assert InOnePlace(s, x);
    }
    DistinctFits(owners, others);
  }

  lemma SleepBlocks(s: State)
    requires Inv(s) && s.running != NULL
    ensures s.running in Sleep(s).waiting
    ensures Sleep(s).timers == AddTimer(s.timers, Timer(s.time + s.Me().arg0, s.running))
  {
    hide AddTimer;
    TimerPoolSuffices(s);
    Placed(s);
    assert InOnePlace(s, s.running);
  }

  lemma AddTimerInserts(timers: seq<Timer>, t: Timer)
    requires Sorted(timers)
    ensures Inserted(timers, AddTimer(timers, t), t)
  {
    SlotSplits(timers, t.wake);
    assert InsertedAt(timers, AddTimer(timers, t), t, Slot(timers, t.wake));
  }

  lemma InvSorted(s: State)
    requires Inv(s)
    ensures Sorted(s.timers)
  {
  }

  lemma SleepIsEntered(s: State, cycles: int)
    requires Inv(s) && s.running != NULL
    ensures var e := Entered(s, SleepCall(cycles));
            && CanStep(s, SleepCall(cycles)) && Step(s, SleepCall(cycles)) == Sleep(e) && Inv(e)
            && e.timers == s.timers && e.time == s.time && e.running == s.running && e.Me().arg0 == cycles
  {
    hide Inv, Sleep;
    EnteredKeepsInv(s, SleepCall(cycles));
    EnteredCall(s, DSOS_CALL_SLEEP, [cycles]);
  }

  /** Sleep always blocks the caller, with a timer at the time it asked for: behind those that are due no later,
      ahead of all that are due later. */
  lemma SleepNeverFails(s: State, cycles: int)
    requires Inv(s) && s.running != NULL
    ensures s.running in Step(s, SleepCall(cycles)).waiting
    ensures Sorted(s.timers) && Inserted(s.timers, Step(s, SleepCall(cycles)).timers, Timer(s.time + cycles, s.running))
  {
    hide *;
    InvSorted(s);
    AddTimerInserts(s.timers, Timer(s.time + cycles, s.running));
    SleepIsEntered(s, cycles);
    SleepBlocks(Entered(s, SleepCall(cycles)));
  }
}
