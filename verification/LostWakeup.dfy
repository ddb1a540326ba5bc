/** A run in which init waits forever for a process that has already died: process 1 spawns 2 and 3
    and exits, init adopts them and waits for 2, and 2 exits while its parent pointer still names 1. */
module LostWakeup {
  import opened ProcessModel
  import opened Wakeups

  function Block(pid: int, status: Status, parent: int, children: seq<int>, callNum: int, arg0: int,
                 callResult: int, returnValue: int): Proc
  {
    Proc(pid, returnValue, status, parent, children, NULL, callNum, arg0, 0, callResult)
  }

  const S1 := State(0, 2, 0, 0, [1], [], [], [], [2, 3], 3,
                    [Block(0, Running, NULL, [1], 5, 0, 1, 0), Block(1, Ready, 0, [], 0, 0, 0, 0),
                     UnusedProc, UnusedProc], map[])

  const S2 := State(0, 2, 0, 1, [0], [], [], [], [2, 3], 3,
                    [Block(0, Ready, NULL, [1], 1, 0, 1, 0), Block(1, Running, 0, [], 0, 0, 0, 0),
                     UnusedProc, UnusedProc], map[])

  const S3 := State(0, 3, 0, 1, [0, 2], [], [], [], [3], 2,
                    [Block(0, Ready, NULL, [1], 1, 0, 1, 0), Block(1, Running, 0, [2], 5, 0, 2, 0),
                     Block(2, Ready, 1, [], 0, 0, 0, 0), UnusedProc], map[])

  const S4 := State(0, 4, 0, 1, [0, 2, 3], [], [], [], [], 1,
                    [Block(0, Ready, NULL, [1], 1, 0, 1, 0), Block(1, Running, 0, [2, 3], 5, 0, 3, 0),
                     Block(2, Ready, 1, [], 0, 0, 0, 0), Block(3, Ready, 1, [], 0, 0, 0, 0)], map[])

  const S5 := State(0, 4, 0, 0, [2, 3], [], [1], [], [], 1,
                    [Block(0, Running, NULL, [1, 2, 3], 1, 0, 1, 0), Block(1, Zombie, 0, [], 4, 7, 3, 7),
                     Block(2, Ready, 1, [], 0, 0, 0, 0), Block(3, Ready, 1, [], 0, 0, 0, 0)], map[])

  const S6 := State(0, 4, 0, 2, [3], [0], [1], [], [], 1,
                    [Block(0, Waiting, NULL, [1, 2, 3], 3, 2, 1, 0), Block(1, Zombie, 0, [], 4, 7, 3, 7),
                     Block(2, Ready, 1, [], 0, 0, 0, 0), Block(3, Ready, 1, [], 0, 0, 0, 0)], map[])

  const S7 := State(0, 4, 0, 3, [], [0], [1, 2], [], [], 1,
                    [Block(0, Waiting, NULL, [1, 2, 3], 3, 2, 1, 0), Block(1, Zombie, 0, [], 4, 7, 3, 7),
                     Block(2, Zombie, 1, [], 4, 5, 0, 5), Block(3, Running, 1, [], 0, 0, 0, 0)], map[])

  lemma Spawn1()
    ensures Goes(Boot(4), SpawnCall(0, 0), S1)
  {
    assert Upto(3) == [1, 2, 3];
  }

  lemma Preempt2()
    ensures Goes(S1, Preempt, S2)
  {
  }

  lemma Spawn3()
    ensures Goes(S2, SpawnCall(0, 0), S3)
  {
    var t := Step(S2, SpawnCall(0, 0));
    assert t.P(1).children == [2] && t.free == [3] && t.ready == [0, 2];
    assert t.procs == S3.procs;
  }

  lemma Spawn4()
    ensures Goes(S3, SpawnCall(0, 0), S4)
  {
    var t := Step(S3, SpawnCall(0, 0));
    assert t.P(1).children == [2, 3] && t.free == [] && t.ready == [0, 2, 3];
    assert t.procs == S4.procs;
  }

  lemma Exit5()
    ensures Goes(S4, ExitCall(7), S5)
  {
    var t := Step(S4, ExitCall(7));
    assert t.P(0).children == [1, 2, 3] && t.ready == [2, 3] && t.zombie == [1];
    assert t.procs == S5.procs;
  }

  lemma Wait6()
    ensures Goes(S5, WaitCall(2, 0), S6)
  {
    var e := Entered(S5, WaitCall(2, 0));
    assert e.Me().children == [1, 2, 3] && [1, 2, 3][1..] == [2, 3] && e.P(1).pid == 1 && e.P(2).pid == 2;
    assert Scan(e, [2, 3], 2) == 0 && Awaited(e) == 1;
    assert WaitBlocks(e) && e.ready == [2, 3];
    hide Awaited, WaitBlocks;
    var t := Next(ProcessModel.Block(e));
    assert t.waiting == [0] && t.ready == [3];
    assert t.procs == S6.procs;
  }

  lemma Exit7()
    ensures Goes(S6, ExitCall(5), S7)
  {
    var t := Step(S6, ExitCall(5));
    assert t.P(0).children == [1, 2, 3] && t.ready == [] && t.zombie == [1, 2];
    assert t.procs == S7.procs;
  }

  ghost predicate Goes(s: State, op: Op, t: State) {
    CanStep(s, op) && Step(s, op) == t
  }

  lemma Prepend(s: State, op: Op, t: State, ops: seq<Op>, end: State) returns (r: seq<Op>)
    requires Goes(s, op, t) && ValidRun(t, ops) && After(t, ops) == end
    ensures ValidRun(s, r) && After(s, r) == end
  {
    r := [op] + ops;
    assert r[1..] == ops;
  }

  /** Consecutive steps make a run. */
  lemma {:induction false} Chain(states: seq<State>, calls: seq<Op>) returns (ops: seq<Op>)
    requires |states| == |calls| + 1
    requires forall i :: 0 <= i < |calls| ==> Goes(states[i], calls[i], states[i + 1])
    ensures ValidRun(states[0], ops) && After(states[0], ops) == states[|calls|]
  {
    hide CanStep, Step;
    if calls == [] {
      ops := [];
    } else {
      assert forall i :: 0 <= i < |calls[1..]| ==>
               Goes(states[1..][i], calls[1..][i], states[1..][i + 1]) by {
        forall i | 0 <= i < |calls[1..]| ensures Goes(states[1..][i], calls[1..][i], states[1..][i + 1]) {
          assert Goes(states[i + 1], calls[i + 1], states[i + 2]);
        }
      }
      ops := Chain(states[1..], calls[1..]);
      assert Goes(states[0], calls[0], states[1]);
      ops := Prepend(states[0], calls[0], states[1], ops, states[|calls|]);
    }
  }

  lemma Lost()
    ensures !NoLostWakeup(S7)
  {
    assert 2 in S7.P(0).children && S7.P(2).status == Zombie && WaitsFor(S7.P(0), S7.P(2).pid);
  }

  /** The kernel accepts a run from the initial state that loses a wakeup. */
  lemma WakeupCanBeLost() returns (ops: seq<Op>)
    ensures ValidRun(Boot(4), ops) && After(Boot(4), ops) == S7 && !NoLostWakeup(S7)
  {
    hide Goes;
    Spawn1(); Preempt2(); Spawn3(); Spawn4(); Exit5(); Wait6(); Exit7();
    Lost();
    hide *;
    var states := [Boot(4), S1, S2, S3, S4, S5, S6, S7];
    var calls := [SpawnCall(0, 0), Preempt, SpawnCall(0, 0), SpawnCall(0, 0), ExitCall(7), WaitCall(2, 0), ExitCall(5)];
    ops := Chain(states, calls);
  }
}
