/** The pool of PCBPtr blocks, one for each entry in a list of children.  The exit of a process whose parent is
    waiting detaches the entry without freeing it, and so does nobody free the block of a message queue slot:
    the pool shrinks until no process can be spawned. */
module PointerBlocks {
  import opened Sequences
  import opened ProcessModel
  import opened ProcessInvariant
  import opened ProcessSteps
  import Initial
  import LW = LostWakeup
  import R = ResourceModel
  import W = WholeSystem
  import X = Projection

  // ---------- what each call does to the pool ----------

  /** The exit of a process whose parent is waiting for it. */
  predicate HandsOver(s: State, op: Op)
    requires CanStep(s, op)
  {
    op.ExitCall? && ParentWaits(Die(Adopt(Entered(s, op))))
  }

  /** The PCBPtr blocks that the step takes out of circulation. */
  function Lost(s: State, op: Op): nat
    requires CanStep(s, op)
  {
    if op.OtherCall? then op.blocks else if HandsOver(s, op) then 1 else 0
  }

  /** The PCBPtr blocks and the PCBs that are free, and the PCBPtr blocks lost on the way from s to t. */
  ghost predicate Balance(s: State, t: State, lost: int) {
    t.ptrFree - |t.free| == s.ptrFree - |s.free| - lost && |t.procs| == |s.procs|
  }

  lemma {:induction false} WakeElapsedBalance(s: State, k: nat)
    requires k <= |s.ready|
    ensures Balance(s, WakeElapsed(s, k), 0)
    decreases |s.timers|
  {
    if Elapsed(s) {
      WakeElapsedBalance(WakeOne(s, k), k + 1);
    }
  }

  lemma ScheduleBalance(s: State)
    ensures Balance(s, Schedule(s), 0)
  {
    WakeElapsedBalance(s, 0);
    hide WakeElapsed;
  }

  lemma SpawnBalance(s: State)
    requires CanSpawn(s)
    ensures Balance(s, Spawn(s), 0)
  {
  }

  lemma SleepBalance(s: State)
    ensures Balance(s, Sleep(s), 0)
  {
    hide AddTimer;
  }

  lemma WaitBalance(s: State)
    ensures Balance(s, Wait(s), 0)
  {
    hide Remove, RemoveAt, Store, Awaited, WaitBlocks;
  }

  lemma DieBalance(s: State)
    ensures Balance(s, Die(Adopt(s)), 0)
  {
  }

  lemma ExitBalance(s: State)
    requires CanExit(s)
    ensures Balance(s, Exit(s), if ParentWaits(Die(Adopt(s))) then 1 else 0)
  {
    DieBalance(s);
    hide Die, Adopt, Remove, RemoveAt, Store, FindPid, DropTimers, ParentWaits, HasChild;
  }

  lemma EnteredBalance(s: State, op: Op)
    ensures Balance(s, Entered(s, op), 0)
  {
  }

  /** A PCB and a PCBPtr block come and go together, except for the blocks that are lost. */
  lemma StepBalance(s: State, op: Op)
    requires CanStep(s, op)
    ensures Balance(s, Step(s, op), Lost(s, op))
  {
    var e := Entered(s, op);
    EnteredBalance(s, op);
    CallIs(s, op);
    hide Entered, Schedule, Spawn, Sleep, Wait, Exit, CanSpawn, CanExit, Die, Adopt, ParentWaits, WaitBlocks;
    match op
    case Tick => ScheduleBalance(Advance(s));
    case Preempt => ScheduleBalance(e);
    case SpawnCall(_, _) => SpawnBalance(e);
    case SleepCall(_) => SleepBalance(e);
    case WaitCall(_, _) => WaitBalance(e);
    case ExitCall(_) => ExitBalance(e);
    case OtherCall(_, _, _, _, _) =>
  }

  function AllLost(s: State, ops: seq<Op>): nat
    requires ValidRun(s, ops)
    decreases |ops|
  {
    if ops == [] then 0 else Lost(s, ops[0]) + AllLost(Step(s, ops[0]), ops[1..])
  }

  lemma {:induction false} RunBalance(s: State, ops: seq<Op>)
    requires ValidRun(s, ops)
    ensures Balance(s, After(s, ops), AllLost(s, ops))
    decreases |ops|
  {
    if ops != [] {
      hide Step, CanStep, Lost;
      StepBalance(s, ops[0]);
      RunBalance(Step(s, ops[0]), ops[1..]);
    }
  }

  // ---------- the entries in use ----------

  /** The number of entries in the lists of children. */
  function Entries(procs: seq<Proc>): nat {
    if procs == [] then 0 else |procs[0].children| + Entries(procs[1..])
  }

  /** Everything in one of the lists of children, counted. */
  ghost function Together(procs: seq<Proc>): multiset<int> {
    if procs == [] then multiset{} else multiset(procs[0].children) + Together(procs[1..])
  }

  lemma {:induction false} EntriesCounted(procs: seq<Proc>)
    ensures |Together(procs)| == Entries(procs)
  {
    if procs != [] {
      EntriesCounted(procs[1..]);
    }
  }

  /** No entry twice in a list, and none in two lists. */
  ghost predicate Apart(procs: seq<Proc>) {
    && (forall i :: 0 <= i < |procs| ==> Distinct(procs[i].children))
    && (forall i, j, c :: 0 <= i < j < |procs| && c in procs[i].children ==> c !in procs[j].children)
  }

  ghost predicate Somewhere(procs: seq<Proc>, c: int) {
    exists i :: 0 <= i < |procs| && c in procs[i].children
  }

  lemma DistinctOnce(s: seq<int>, c: int)
    requires Distinct(s)
    ensures multiset(s)[c] == if c in s then 1 else 0
  {
    if c in s {
      var i :| 0 <= i < |s| && s[i] == c;
      assert s == s[..i] + [c] + s[i + 1..];
      assert multiset(s) == multiset(s[..i]) + multiset{c} + multiset(s[i + 1..]);
      assert c !in s[..i] && c !in s[i + 1..];
    }
  }

  lemma {:induction false} OnceTogether(procs: seq<Proc>, c: int)
    requires Apart(procs)
    ensures Together(procs)[c] == if Somewhere(procs, c) then 1 else 0
  {
    if procs != [] {
      var rest := procs[1..];
      assert forall i :: 0 <= i < |rest| ==> rest[i] == procs[i + 1];
      assert Apart(rest);
      OnceTogether(rest, c);
      DistinctOnce(procs[0].children, c);
      if Somewhere(procs, c) {
        var i :| 0 <= i < |procs| && c in procs[i].children;
        assert i > 0 ==> rest[i - 1] == procs[i] && Somewhere(rest, c);
      }
    }
  }

  lemma {:induction false} OnceSize(m: multiset<int>, n: nat)
    requires Once(m, n)
    ensures |m| == n
  {
    if n == 0 {
      assert forall b: int :: b !in m;
      assert m == multiset{};
    } else {
      assert m[n - 1] == 1;
      OnceSize(m - multiset{n - 1}, n - 1);
    }
  }

  /** Every process but the first has exactly one entry: it is live and not init exactly when it has one. */
  lemma EntryIffLive(s: State, c: int)
    requires Inv(s)
    ensures Apart(s.procs)
    ensures Somewhere(s.procs, c) <==> Live(s, c) && c != s.init
  {
    assert forall i :: 0 <= i < |s.procs| ==> s.procs[i] == s.P(i);
    if Somewhere(s.procs, c) {
      var i :| 0 <= i < |s.procs| && c in s.procs[i].children;
      assert ChildOk(s, i, c);
    }
    if Live(s, c) && c != s.init {
      assert HasHolder(s, c);
      var h :| c in s.P(h).children;
      assert 0 <= h < |s.procs|;
    }
  }

  lemma EntriesAndFree(s: State)
    requires Inv(s)
    ensures Once(Together(s.procs) + multiset(s.free) + multiset{s.init}, |s.procs|)
  {
    Placed(s);
    forall b
      ensures (Together(s.procs) + multiset(s.free) + multiset{s.init})[b] == if 0 <= b < |s.procs| then 1 else 0
    {
      EntryIffLive(s, b);
      OnceTogether(s.procs, b);
      DistinctOnce(s.free, b);
      assert InOnePlace(s, b);
      hide Inv, Together, Somewhere, Apart;
    }
  }

  /** The entries in use: one for each process that is alive or a zombie, except the first. */
  lemma EntriesInUse(s: State)
    requires Inv(s)
    ensures Entries(s.procs) == |s.procs| - |s.free| - 1
  {
    EntriesAndFree(s);
    OnceSize(Together(s.procs) + multiset(s.free) + multiset{s.init}, |s.procs|);
    EntriesCounted(s.procs);
    hide Inv, Together, Entries;
  }

  // ---------- from the start ----------

  /** From the start: the PCBPtr blocks that are free, those in lists of children and those lost add up to all
      of them, and a process can be spawned if and only if a PCB is free and no more blocks have been lost than
      PCBs are free. */
  lemma BlocksConserved(n: nat, ops: seq<Op>)
    requires n > 0 && ValidRun(Boot(n), ops)
    ensures var t, lost := After(Boot(n), ops), AllLost(Boot(n), ops);
            && t.ptrFree + Entries(t.procs) + lost == n
            && (CanSpawn(t) <==> t.free != [] && lost <= |t.free|)
  {
    var s := Boot(n);
    assert s.ptrFree == |s.procs| == n && |s.free| == n - 1;
    Initial.BootInv(n);
    hide Inv, Boot, After, ValidRun, AllLost, Entries;
    RunKeepsInv(s, ops);
    RunBalance(s, ops);
    EntriesInUse(After(s, ops));
  }

  /** No run of the kernel loses more blocks than there are, and none that has lost as many spawns again. */
  lemma SpawnsRunOut(n: nat, ops: seq<Op>)
    requires n > 0 && ValidRun(Boot(n), ops)
    ensures AllLost(Boot(n), ops) <= n
    ensures AllLost(Boot(n), ops) == n ==> !CanSpawn(After(Boot(n), ops))
  {
    Initial.BootInv(n);
    BlocksConserved(n, ops);
    RunKeepsInv(Boot(n), ops);
    EntriesInUse(After(Boot(n), ops));
    RunBalance(Boot(n), ops);
    assert |Boot(n).procs| == n;
    hide Inv, Boot, After, ValidRun, AllLost, CanSpawn;
  }

  // ---------- a run ----------

  function Block(pid: int, status: Status, parent: int, children: seq<int>, callNum: int, callResult: int): Proc {
    Proc(pid, 0, status, parent, children, NULL, callNum, 0, 0, callResult)
  }

  /** Init has spawned process `pid`, its second or third, in block 1. */
  function Spawned(pid: int, left: nat, was: Proc): State {
    State(0, pid + 1, 0, 0, [1], [], [], [], [], left,
          [Block(0, Running, NULL, [1], DSOS_CALL_SPAWN, pid),
           was.(pid := pid, returnValue := 0, status := Ready, parent := 0, children := [], timer := NULL)], map[])
  }

  /** Init waits for it. */
  function Waits(pid: int, left: nat, was: Proc): State {
    State(0, pid + 1, 0, 1, [], [0], [], [], [], left,
          [Block(0, Waiting, NULL, [1], DSOS_CALL_WAIT, pid),
           was.(pid := pid, returnValue := 0, status := Ready, parent := 0, children := [], timer := NULL)], map[])
  }

  /** It has exited and init has taken over. */
  function Ended(pid: int, left: nat): State {
    State(0, pid + 1, 0, 0, [], [], [], [], [1], left,
          [Block(0, Running, NULL, [], DSOS_CALL_WAIT, pid), Block(pid, Zombie, 0, [], DSOS_CALL_EXIT, 0)], map[])
  }

  const Gone1 := Block(1, Zombie, 0, [], DSOS_CALL_EXIT, 0)

  lemma FirstSpawn()
    ensures LW.Goes(Boot(2), SpawnCall(0, 0), Spawned(1, 1, UnusedProc))
  {
    var t := Step(Boot(2), SpawnCall(0, 0));
    assert Upto(1) == [1];
    assert t.P(0).children == [1] && t.free == [] && t.ready == [1];
    assert t.procs == Spawned(1, 1, UnusedProc).procs;
  }

  lemma SecondSpawn()
    ensures LW.Goes(Ended(1, 1), SpawnCall(0, 0), Spawned(2, 0, Gone1))
  {
    var s := Ended(1, 1);
    var e := s.(procs := [Block(0, Running, NULL, [], DSOS_CALL_SPAWN, 1), Gone1]);
    assert Entered(s, SpawnCall(0, 0)) == e by {
      assert Entered(s, SpawnCall(0, 0)).procs == e.procs;
    }
    hide Entered;
    var t := Spawn(e);
    assert t.P(0).children == [1] && t.free == [] && t.ready == [1];
    assert t.procs == Spawned(2, 0, Gone1).procs;
  }

  lemma ThenWaits(pid: int, left: nat, was: Proc)
    ensures LW.Goes(Spawned(pid, left, was), WaitCall(0, 0), Waits(pid, left, was))
  {
    var s := Spawned(pid, left, was);
    var t := Step(s, WaitCall(0, 0));
    assert Entered(s, WaitCall(0, 0)).Me().children == [1];
    assert t.ready == [] && t.waiting == [0];
    assert t.procs == Waits(pid, left, was).procs;
  }

  /** It is dead and has not been taken off the lists. */
  function Died(pid: int, left: nat): State {
    State(0, pid + 1, 0, 1, [], [0], [1], [], [], left,
          [Block(0, Waiting, NULL, [1], DSOS_CALL_WAIT, pid), Block(pid, Zombie, 0, [], DSOS_CALL_EXIT, 0)], map[])
  }

  lemma Dies(pid: int, left: nat, was: Proc)
    requires was.callResult == 0 && was.arg1 == 0
    ensures Die(Adopt(Entered(Waits(pid, left, was), ExitCall(0)))) == Died(pid, left)
  {
    var e := Entered(Waits(pid, left, was), ExitCall(0));
    var d := Die(Adopt(e));
    assert e.Me().children == [] && d.P(0).children == [1];
    assert d.procs == Died(pid, left).procs;
  }

  lemma TakesOver(pid: int, left: nat)
    ensures ParentWaits(Died(pid, left)) && HasChild(Died(pid, left), 0, pid)
    ensures HandOver(Died(pid, left)) == Ended(pid, left)
  {
    var d := Died(pid, left);
    assert FindPid(d, [1], pid) == 0 && RemoveAt([1], 0) == [];
    assert Remove([0], 0) == [] && Remove([1], 1) == [];
    hide FindPid, RemoveAt, Remove;
    assert HandOver(d).procs == Ended(pid, left).procs;
  }

  lemma Exits(pid: int, left: nat, was: Proc)
    requires was.callResult == 0 && was.arg1 == 0
    ensures LW.Goes(Waits(pid, left, was), ExitCall(0), Ended(pid, left))
  {
    var s, d := Waits(pid, left, was), Died(pid, left);
    Dies(pid, left, was);
    TakesOver(pid, left);
    var e := Entered(s, ExitCall(0));
    assert s.running == e.running == 1 && e.init == 0 && e.Me().parent == 0 && d.Me().parent == 0 && d.Me().pid == pid;
    hide Entered, Waits, Died, Ended, Die, Adopt, ParentWaits, HasChild, HandOver;
    ExitTakesOver(s, 0, e, d);
  }

  lemma ExitTakesOver(s: State, value: int, e: State, d: State)
    requires s.running != NULL && e == Entered(s, ExitCall(value)) && e.running != e.init && e.Me().parent != NULL
    requires Die(Adopt(e)) == d && ParentWaits(d) && HasChild(d, d.Me().parent, d.Me().pid)
    ensures CanStep(s, ExitCall(value)) && Step(s, ExitCall(value)) == HandOver(d)
  {
    hide Entered, Die, Adopt, ParentWaits, HasChild, HandOver;
  }

  lemma NoBlockLeft()
    ensures Ended(2, 0).free == [1] && !CanSpawn(Ended(2, 0))
  {
  }

  /** With two PCBs: init spawns a process and waits for it, twice.  Then a PCB is free and nothing can be
      spawned. */
  lemma TwoWaitsAreEnough() returns (ops: seq<Op>)
    ensures ValidRun(Boot(2), ops)
    ensures After(Boot(2), ops).free == [1] && !CanSpawn(After(Boot(2), ops))
  {
    Unused();
    hide *;
    FirstSpawn(); ThenWaits(1, 1, UnusedProc); Exits(1, 1, UnusedProc);
    SecondSpawn(); ThenWaits(2, 0, Gone1); Exits(2, 0, Gone1);
    NoBlockLeft();
    ops := Nothing(Ended(2, 0));
    ops := LW.Prepend(Waits(2, 0, Gone1), ExitCall(0), Ended(2, 0), ops, Ended(2, 0));
    ops := LW.Prepend(Spawned(2, 0, Gone1), WaitCall(0, 0), Waits(2, 0, Gone1), ops, Ended(2, 0));
    ops := LW.Prepend(Ended(1, 1), SpawnCall(0, 0), Spawned(2, 0, Gone1), ops, Ended(2, 0));
    ops := LW.Prepend(Waits(1, 1, UnusedProc), ExitCall(0), Ended(1, 1), ops, Ended(2, 0));
    ops := LW.Prepend(Spawned(1, 1, UnusedProc), WaitCall(0, 0), Waits(1, 1, UnusedProc), ops, Ended(2, 0));
    ops := LW.Prepend(Boot(2), SpawnCall(0, 0), Spawned(1, 1, UnusedProc), ops, Ended(2, 0));
  }

  lemma Unused()
    ensures UnusedProc.callResult == UnusedProc.arg1 == Gone1.callResult == Gone1.arg1 == 0
  {
  }

  lemma Nothing(s: State) returns (ops: seq<Op>)
    ensures ValidRun(s, ops) && After(s, ops) == s
  {
    ops := [];
  }

  // ---------- in the whole system ----------

  /** Exits with a waiting parent and opens that take a slot of a message queue lose a block each. */
  predicate Loses(s: W.System, o: W.Op) {
    if o.ProcessOp? then W.Awaited(s.ps, o.p) else R.TakesSlot(s.rs, o.r)
  }

  lemma LosesIs(s: W.System, o: W.Op)
    requires W.CanDo(s, o) && CanStep(s.ps, X.Call(s, o))
    ensures Lost(s.ps, X.Call(s, o)) == if Loses(s, o) then 1 else 0
  {
    hide CanStep, Die, Adopt, ParentWaits, R.CanStep, R.ById, R.Perform, Entered;
  }

  function Losses(s: W.System, ops: seq<W.Op>): nat
    requires W.ValidRun(s, ops)
    decreases ops
  {
    if ops == [] then 0 else (if Loses(s, ops[0]) then 1 else 0) + Losses(W.Do(s, ops[0]), ops[1..])
  }

  lemma {:induction false} LossesAre(s: W.System, ops: seq<W.Op>)
    requires W.Inv(s) && W.ValidRun(s, ops)
    ensures ValidRun(s.ps, X.Calls(s, ops)) && AllLost(s.ps, X.Calls(s, ops)) == Losses(s, ops)
    decreases ops
  {
    hide W.Inv, W.CanDo, W.Do, X.Call, X.Moves, X.Splits, Loses, Lost, CanStep, Step, ValidRun;
    X.RunSplits(s, ops);
    if ops != [] {
      var o, t := ops[0], W.Do(s, ops[0]);
      X.StepSplits(s, o);
      SplitCall(s, o);
      LosesIs(s, o);
      W.StepKeepsInv(s, o);
      LossesAre(t, ops[1..]);
      MoreLost(s.ps, X.Call(s, o), X.Calls(t, ops[1..]));
    } else {
      NoneLost(s.ps);
    }
  }

  lemma SplitCall(s: W.System, o: W.Op)
    requires W.CanDo(s, o) && X.Splits(s, o)
    ensures CanStep(s.ps, X.Call(s, o)) && W.Do(s, o).ps == Step(s.ps, X.Call(s, o))
  {
  }

  lemma NoneLost(s: State)
    ensures ValidRun(s, []) && AllLost(s, []) == 0
  {
  }

  lemma MoreLost(s: State, p: Op, rest: seq<Op>)
    requires CanStep(s, p) && ValidRun(Step(s, p), rest)
    ensures ValidRun(s, [p] + rest) && AllLost(s, [p] + rest) == Lost(s, p) + AllLost(Step(s, p), rest)
  {
    assert ([p] + rest)[1..] == rest;
    hide CanStep, Step, Lost;
  }

  /** From the start of the whole system: a process can be spawned if and only if a PCB is free and no more
      exits have been awaited and slots taken than PCBs are free; and the two never exceed all blocks. */
  lemma SystemSpawnsIff(processes: nat, standard: nat, queues: nat, descriptors: nat, messages: nat, ops: seq<W.Op>)
    requires processes > 0 && W.ValidRun(W.Boot(processes, standard, queues, descriptors, messages), ops)
    ensures var s := W.Boot(processes, standard, queues, descriptors, messages);
            var t := W.After(s, ops).ps;
            && (CanSpawn(t) <==> t.free != [] && Losses(s, ops) <= |t.free|)
            && t.ptrFree + Entries(t.procs) + Losses(s, ops) == processes
  {
    var s := W.Boot(processes, standard, queues, descriptors, messages);
    assert s.ps == Boot(processes);
    W.BootInv(processes, standard, queues, descriptors, messages);
    hide *;
    X.RunSplits(s, ops);
    LossesAre(s, ops);
    SplitRuns(s, ops);
    BlocksConserved(processes, X.Calls(s, ops));
  }

  lemma SplitRuns(s: W.System, ops: seq<W.Op>)
    requires W.ValidRun(s, ops) && X.RunsSplit(s, ops)
    ensures ValidRun(s.ps, X.Calls(s, ops)) && After(s.ps, X.Calls(s, ops)) == W.After(s, ops).ps
  {
  }
}
