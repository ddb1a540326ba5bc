/** A wait for a pid that no child has: the code means to report an error, and reaps the last child or blocks
    for ever instead. */
module WrongPid {
  import opened Sequences
  import opened ProcessModel
  import opened ProcessInvariant
  import opened ProcessSteps
  import opened ExitValues
  import opened Wakeups
  import opened Stuck
  import Initial
  import LW = LostWakeup

  ghost predicate HasChildPid(s: State, pid: int) {
    exists c :: c in s.Me().children && s.P(c).pid == pid
  }

  /** The scan for a pid stops at a child that has it, if there is one. */
  lemma ScanHits(s: State, pid: int)
    requires s.Me().children != [] && s.Me().arg0 == pid && pid != 0
    ensures s.P(s.Me().children[Awaited(s)]).pid == pid <==> HasChildPid(s, pid)
  {
    var children, k := s.Me().children, Awaited(s);
    ScanStops(s, children, pid);
    if HasChildPid(s, pid) {
      var c :| c in children && s.P(c).pid == pid;
      var i :| 0 <= i < |children| && children[i] == c;
      assert Matches(s.P(children[i]), pid);
    }
  }

  /** The caller has a child with this pid that names it as its parent. */
  ghost predicate HasOwnChild(s: State, pid: int) {
    exists c :: c in s.Me().children && s.P(c).parent == s.running && s.P(c).pid == pid
  }

  lemma EnteredChildren(s: State, pid: int, result: int)
    requires Inv(s) && s.running != NULL
    ensures HasChildPid(Entered(s, WaitCall(pid, result)), pid) <==> HasChildPid(s, pid)
    ensures HasOwnChild(Entered(s, WaitCall(pid, result)), pid) <==> HasOwnChild(s, pid)
    ensures var e := Entered(s, WaitCall(pid, result));
            && e.running == s.running && e.Me().children == s.Me().children && e.Me().arg0 == pid
            && e.Me().callNum == DSOS_CALL_WAIT
            && forall c :: e.P(c).pid == s.P(c).pid && e.P(c).parent == s.P(c).parent && e.P(c).status == s.P(c).status
                           && e.P(c).returnValue == s.P(c).returnValue
  {
    EnteredCall(s, DSOS_CALL_WAIT, [pid, result]);
  }

  /** A wait for a given pid that reports the end of a process reports that pid if and only if some child of the
      caller has it. */
  lemma ReportsPidIff(s: State, pid: int, result: int)
    requires Inv(s) && CanStep(s, WaitCall(pid, result)) && pid != 0
    requires Delivered(s, WaitCall(pid, result)) != []
    ensures Delivered(s, WaitCall(pid, result))[0].pid == pid <==> HasChildPid(s, pid)
  {
    EnteredChildren(s, pid, result);
    ScanHits(Entered(s, WaitCall(pid, result)), pid);
    hide Inv, Awaited, WaitBlocks, Entered;
  }

  // ---------- what happens instead of the error ----------

  lemma BlockedAwaits(s: State, pid: int)
    requires Inv(s) && s.running != NULL && s.Me().callNum == DSOS_CALL_WAIT && s.Me().arg0 == pid != 0
    requires !HasOwnChild(s, pid)
    ensures Awaits(Next(Block(s)), s.running, pid) && Hopeless(Next(Block(s)), s.running, pid)
  {
    var t, b := Next(Block(s)), s.running;
    Placed(s);
    assert InOnePlace(s, b);
    BlockProcs(s);
    BlockParents(s);
    forall c | c in t.P(b).children && t.P(c).parent == b ensures t.P(c).pid != pid {
      assert c in s.Me().children && s.P(c).parent == b;
    }
  }

  lemma BlockParents(s: State)
    ensures forall x :: Next(Block(s)).P(x).parent == s.P(x).parent && Next(Block(s)).P(x).pid == s.P(x).pid
  {
  }

  /** A wait that blocks for a pid which no child with a right parent pointer has never ends: no child has the
      pid, or init has adopted the child. */
  lemma NeverEnds(s: State, pid: int, result: int, ops: seq<Op>)
    requires Inv(s) && CanStep(s, WaitCall(pid, result)) && pid != 0
    requires WaitBlocks(Entered(s, WaitCall(pid, result))) && !HasOwnChild(s, pid)
    requires ValidRun(Step(s, WaitCall(pid, result)), ops)
    ensures After(Step(s, WaitCall(pid, result)), ops).running != s.running
  {
    var op := WaitCall(pid, result);
    var e := Entered(s, op);
    EnteredChildren(s, pid, result);
    EnteredKeepsInv(s, op);
    StepKeepsInv(s, op);
    CallIs(s, op);
    hide Inv, CanStep, Step, Entered, Block, Next, Awaits, Hopeless, HasOwnChild, OnlyRegisters;
    assert Wait(e) == Next(Block(e));
    BlockedAwaits(e, pid);
    WaitsForever(Step(s, op), ops, s.running, pid);
  }

  lemma LastChild(s: State, pid: int)
    requires s.Me().children != [] && s.Me().arg0 == pid && pid != 0 && !HasChildPid(s, pid)
    ensures Awaited(s) == |s.Me().children| - 1 && s.P(s.Me().children[Awaited(s)]).pid != pid
  {
    ScanStops(s, s.Me().children, pid);
    ScanHits(s, pid);
  }

  /** A wait for a pid that no child has reports the error only to a caller without children.  Otherwise the last
      child decides: if it is dead, it is reaped and reported under its own pid; if not, the caller blocks. */
  lemma NoSuchChild(s: State, pid: int, result: int)
    requires Inv(s) && CanStep(s, WaitCall(pid, result)) && pid != 0 && !HasChildPid(s, pid)
    ensures var t, children := Step(s, WaitCall(pid, result)), s.Me().children;
            if children == [] then t.running == s.running && t.Me().callResult == DSOS_EWAIT
            else
              var last := children[|children| - 1];
              if s.P(last).status == Zombie then
                && Delivered(s, WaitCall(pid, result)) == [Delivery(s.running, s.P(last).pid, s.P(last).returnValue)]
                && t.running == s.running && t.Me().callResult == s.P(last).pid != pid
              else WaitBlocks(Entered(s, WaitCall(pid, result))) && t.running != s.running
  {
    var op := WaitCall(pid, result);
    var e := Entered(s, op);
    hide Inv, CanStep, Step, Entered, Wait, Awaited, HasChildPid, HasOwnChild, OnlyRegisters, WaitBlocks, Delivered;
    CallIs(s, op);
    EnteredChildren(s, pid, result);
    EnteredKeepsInv(s, op);
    WaitOutcome(e, pid);
    DeliveredAt(s, pid, result);
    if s.Me().children != [] {
      LastChild(e, pid);
      BlocksIffAlive(e);
    }
  }

  lemma BlocksIffAlive(s: State)
    requires s.Me().children != []
    ensures WaitBlocks(s) <==> s.P(s.Me().children[Awaited(s)]).status != Zombie
  {
  }

  lemma DeliveredAt(s: State, pid: int, result: int)
    requires CanStep(s, WaitCall(pid, result))
    ensures var e := Entered(s, WaitCall(pid, result));
            e.Me().children != [] && !WaitBlocks(e) ==>
              var c := e.P(e.Me().children[Awaited(e)]);
              Delivered(s, WaitCall(pid, result)) == [Delivery(e.running, c.pid, c.returnValue)]
  {
  }

  lemma WaitOutcome(s: State, pid: int)
    requires Inv(s) && s.running != NULL && s.Me().arg0 == pid
    ensures s.Me().children == [] ==> Wait(s).running == s.running && Wait(s).Me().callResult == DSOS_EWAIT
    ensures s.Me().children != [] && !WaitBlocks(s) ==>
              && Wait(s).running == s.running
              && Wait(s).Me().callResult == s.P(s.Me().children[Awaited(s)]).pid
    ensures WaitBlocks(s) ==> Wait(s).running != s.running
  {
    Placed(s);
    assert InOnePlace(s, s.running);
    if s.ready != [] { assert InOnePlace(s, s.ready[0]); }
    hide Awaited, RemoveAt, Remove, Store, Inv;
  }

  // ---------- two runs ----------

  const Spawned := State(0, 2, 0, 0, [1], [], [], [], [], 1,
                         [Proc(0, 0, Running, NULL, [1], NULL, DSOS_CALL_SPAWN, 0, 0, 1),
                          Proc(1, 0, Ready, 0, [], NULL, 0, 0, 0, 0)], map[])

  const Preempted := State(0, 2, 0, 1, [0], [], [], [], [], 1,
                           [Proc(0, 0, Ready, NULL, [1], NULL, DSOS_CALL_PREEMPT, 0, 0, 1),
                            Proc(1, 0, Running, 0, [], NULL, 0, 0, 0, 0)], map[])

  const Dead := State(0, 2, 0, 0, [], [], [1], [], [], 1,
                      [Proc(0, 0, Running, NULL, [1], NULL, DSOS_CALL_PREEMPT, 0, 0, 1),
                       Proc(1, 7, Zombie, 0, [], NULL, DSOS_CALL_EXIT, 7, 0, 0)], map[])

  const Blocked := State(0, 2, 0, 1, [], [0], [], [], [], 1,
                         [Proc(0, 0, Waiting, NULL, [1], NULL, DSOS_CALL_WAIT, 5, 0, 1),
                          Proc(1, 0, Ready, 0, [], NULL, 0, 0, 0, 0)], map[])

  lemma Spawns()
    ensures LW.Goes(Boot(2), SpawnCall(0, 0), Spawned)
  {
    var t := Step(Boot(2), SpawnCall(0, 0));
    assert Upto(1) == [1];
    assert t.P(0).children == [1] && t.free == [] && t.ready == [1];
    assert t.procs == Spawned.procs;
  }

  lemma Preempts()
    ensures LW.Goes(Spawned, Preempt, Preempted)
  {
  }

  lemma Exits()
    ensures LW.Goes(Preempted, ExitCall(7), Dead)
  {
    var t := Step(Preempted, ExitCall(7));
    assert t.P(0).children == [1] && t.ready == [] && t.zombie == [1];
    assert t.procs == Dead.procs;
  }

  lemma WaitReaps()
    ensures CanStep(Dead, WaitCall(5, 0)) && Delivered(Dead, WaitCall(5, 0)) == [Delivery(0, 1, 7)]
    ensures Step(Dead, WaitCall(5, 0)).running == 0 && Step(Dead, WaitCall(5, 0)).Me().callResult == 1
  {
    assert Dead.Me().children == [1];
  }

  lemma WaitBlocksInit()
    ensures LW.Goes(Spawned, WaitCall(5, 0), Blocked)
  {
    var t := Step(Spawned, WaitCall(5, 0));
    assert t.ready == [] && t.waiting == [0];
    assert t.procs == Blocked.procs;
  }

  /** The first process waits for pid 5, which nobody has, and is told that process 1 has ended. */
  lemma OtherPidReported() returns (ops: seq<Op>)
    ensures ValidRun(Boot(2), ops) && After(Boot(2), ops) == Dead
    ensures CanStep(Dead, WaitCall(5, 0)) && Delivered(Dead, WaitCall(5, 0)) == [Delivery(0, 1, 7)]
    ensures Step(Dead, WaitCall(5, 0)).running == 0 && Step(Dead, WaitCall(5, 0)).Me().callResult == 1
  {
    hide *;
    Spawns(); Preempts(); Exits(); WaitReaps();
    ops := LW.Chain([Boot(2), Spawned, Preempted, Dead], [SpawnCall(0, 0), Preempt, ExitCall(7)]);
  }

  /** The first process waits for pid 5, which nobody has, while its child is alive, and never runs again. */
  lemma WaitsForNobody(ops: seq<Op>)
    requires ValidRun(Blocked, ops)
    ensures ValidRun(Boot(2), [SpawnCall(0, 0), WaitCall(5, 0)])
    ensures After(Boot(2), [SpawnCall(0, 0), WaitCall(5, 0)]) == Blocked && After(Blocked, ops).running != 0
  {
    hide *;
    TwoCalls(Boot(2), SpawnCall(0, 0), Spawned, WaitCall(5, 0), Blocked);
    Initial.BootInv(2);
    Spawns();
    WaitBlocksInit();
    StepsInv();
    NobodyHas5();
    NeverEnds(Spawned, 5, 0, ops);
  }

  lemma TwoCalls(s: State, first: Op, t: State, second: Op, u: State)
    ensures LW.Goes(s, first, t) && LW.Goes(t, second, u) ==>
              ValidRun(s, [first, second]) && After(s, [first, second]) == u
  {
    assert [first, second][1..] == [second] && [second][1..] == [];
    hide CanStep, Step;
    assert ValidRun(u, []) && After(u, []) == u;
    assert LW.Goes(t, second, u) ==> ValidRun(t, [second]) && After(t, [second]) == After(u, []);
  }

  lemma NobodyHas5()
    ensures Spawned.running == 0 && !HasOwnChild(Spawned, 5) && WaitBlocks(Entered(Spawned, WaitCall(5, 0)))
  {
    assert Spawned.Me().children == [1] && Spawned.P(1).pid == 1;
  }

  lemma StepsInv()
    requires Inv(Boot(2)) && LW.Goes(Boot(2), SpawnCall(0, 0), Spawned) && LW.Goes(Spawned, WaitCall(5, 0), Blocked)
    ensures Inv(Spawned) && CanStep(Spawned, WaitCall(5, 0)) && Step(Spawned, WaitCall(5, 0)) == Blocked
  {
    hide Inv, CanStep, Step, Spawned, Blocked;
    StepKeepsInv(Boot(2), SpawnCall(0, 0));
  }
}
