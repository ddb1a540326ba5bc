/** Runs in which a process exits only when it has no children left. */
module Discipline {
  import opened ProcessModel
  import opened ProcessInvariant
  import opened ProcessSteps
  import opened Wakeups
  import opened ExitValues
  import opened Initial

  /** Every child's parent pointer names the process that has it as a child. */
  ghost predicate NoOrphans(s: State) {
    forall h, c :: c in s.P(h).children ==> s.P(c).parent == h
  }

  lemma QuietNoOrphans(s: State, t: State)
    requires NoOrphans(s) && Quiet(s, t)
    ensures NoOrphans(t)
  {
    forall h, c | c in t.P(h).children ensures t.P(c).parent == h {
      assert SameIdentity(s.P(h), t.P(h)) && SameIdentity(s.P(c), t.P(c));
    }
  }

  lemma SpawnNoOrphans(s: State)
    requires Inv(s) && s.running != NULL && CanSpawn(s) && NoOrphans(s)
    ensures NoOrphans(Spawn(s))
  {
    SpawnIsBirth(s);
    BirthChildren(s, Spawn(s), s.running, s.free[0]);
  }

  lemma BurialNoOrphans(s: State, t: State, h: int, k: nat, c: int)
    requires NoSharing(s) && NoOrphans(s) && Burial(s, t, h, k, c)
    ensures NoOrphans(t)
  {
    BurialChildren(s, t, h, k, c);
  }

  lemma WaitNoOrphans(s: State)
    requires Inv(s) && s.running != NULL && NoOrphans(s)
    ensures NoOrphans(Wait(s))
  {
    if Reaps(s) {
      var k := Awaited(s);
      ReapedChild(s);
      ReapIsBurial(s, k);
      BurialNoOrphans(s, Reap(s, k), s.running, k, s.Me().children[k]);
    } else {
      NoReapQuiet(s);
      QuietNoOrphans(s, Wait(s));
    }
  }

  lemma ChildlessDieQuiet(s: State)
    requires Partition(s) && s.running != NULL && s.running != s.init && s.Me().children == []
    requires Live(s, s.init)
    ensures forall x :: SameIdentity(s.P(x), Die(Adopt(s)).P(x))
  {
    DieIsAdoption(s);
  }

  lemma ExitNoOrphans(s: State)
    requires Inv(s) && s.running != NULL && CanExit(s) && NoOrphans(s) && s.Me().children == []
    ensures NoOrphans(Exit(s))
  {
    var d := Die(Adopt(s));
    ChildlessDieQuiet(s);
    assert NoOrphans(d) by {
      forall h, c | c in d.P(h).children ensures d.P(c).parent == h {
        assert SameIdentity(s.P(h), d.P(h)) && SameIdentity(s.P(c), d.P(c));
      }
    }
    DieFamily(s);
    if ParentWaits(d) {
      ParentIsListed(s, d);
      HandOverIsBurial(s, d);
      BurialNoOrphans(d, Exit(s), s.Me().parent, FindPid(d, d.P(s.Me().parent).children, s.Me().pid), s.running);
    } else {
      DispatchQuiet(d);
      QuietNoOrphans(d, Exit(s));
    }
  }

  lemma StepNoOrphans(s: State, op: Op)
    requires Inv(s) && CanStep(s, op) && NoOrphans(s)
    requires op.ExitCall? ==> s.Me().children == []
    ensures NoOrphans(Step(s, op))
  {
    hide Inv, NoOrphans;
    EnteredKeepsInv(s, op);
    EntryChildren(s, op);
    var e := Entered(s, op);
    if op.Tick? {
      ScheduleQuiet(Advance(s));
      QuietNoOrphans(s, Advance(s));
      QuietNoOrphans(Advance(s), Step(s, op));
    } else {
      QuietNoOrphans(s, e);
      if op.Preempt? {
        ScheduleQuiet(e);
        QuietNoOrphans(e, Step(s, op));
      } else if op.SpawnCall? {
        SpawnNoOrphans(e);
      } else if op.SleepCall? {
        SleepQuiet(e);
        QuietNoOrphans(e, Step(s, op));
      } else if op.WaitCall? {
        WaitNoOrphans(e);
      } else if op.ExitCall? {
        ExitNoOrphans(e);
      } else {
        OtherQuiet(e, op.result, op.returnValue, op.blocks);
        QuietNoOrphans(e, Step(s, op));
      }
    }
  }

  ghost predicate ChildlessExits(s: State, ops: seq<Op>)
    requires ValidRun(s, ops)
    decreases |ops|
  {
    ops == [] || ((ops[0].ExitCall? ==> s.Me().children == []) && ChildlessExits(Step(s, ops[0]), ops[1..]))
  }

  lemma ChildlessLosesNothing(s: State)
    requires NoOrphans(s) && s.Me().children == []
    ensures !LosesWakeup(s)
  {
  }

  /** Without orphans the exit needs no more than a process to run next, its parent or a ready one. */
  lemma ExitNeedsOnlyAProcess(s: State)
    requires Inv(s) && NoOrphans(s) && s.running != NULL && s.running != s.init
    ensures CanExit(s) <==> ParentWaits(s) || s.ready != []
  {
    var d := Die(Adopt(s));
    ParentWaitsSame(s);
    DieFamily(s);
    Placed(s);
    assert InOnePlace(s, s.running);
    assert SameButChildren(s.Me(), d.Me());
    assert Covered(s) && HasHolder(s, s.running);
    var h :| s.running in s.P(h).children;
    assert h == s.Me().parent;
    AdoptedChildren(s);
    assert ChildAfter(s, h, s.running) by {
      assert ChildOk(s, h, s.running);
    }
    InChildren(d, d.P(h).children, s.running);
  }

  lemma {:induction false} InChildren(s: State, children: seq<int>, c: int)
    requires c in children
    ensures FindPid(s, children, s.P(c).pid) < |children|
  {
    if s.P(children[0]).pid != s.P(c).pid {
      InChildren(s, children[1..], c);
    }
  }

  lemma {:induction false} RunFrom(s: State, ops: seq<Op>)
    requires Inv(s) && NoOrphans(s) && NoLostWakeup(s) && ValidRun(s, ops) && ChildlessExits(s, ops)
    ensures NoOrphans(After(s, ops)) && NoLostWakeup(After(s, ops))
    decreases |ops|
  {
    hide Inv, Step, CanStep, NoOrphans, NoLostWakeup;
    if ops != [] {
      StepKeepsInv(s, ops[0]);
      StepNoOrphans(s, ops[0]);
      StepLosesIff(s, ops[0]);
      if ops[0].ExitCall? {
        ChildlessLosesNothing(s);
      }
      RunFrom(Step(s, ops[0]), ops[1..]);
    }
  }

  /** From the start, if only childless processes exit, no wakeup is ever lost. */
  lemma DisciplinedRun(n: nat, ops: seq<Op>)
    requires n > 0 && ValidRun(Boot(n), ops) && ChildlessExits(Boot(n), ops)
    ensures Inv(After(Boot(n), ops))
    ensures NoOrphans(After(Boot(n), ops)) && NoLostWakeup(After(Boot(n), ops))
  {
    BootInv(n);
    BootNoOrphans(n);
    hide *;
    RunKeepsInv(Boot(n), ops);
    RunFrom(Boot(n), ops);
  }

  lemma BootNoOrphans(n: nat)
    requires n > 0
    ensures NoOrphans(Boot(n))
  {
    assert forall b :: Boot(n).P(b).children == [];
  }
}
