/** When a process blocked in wait is woken by the end of a child, and when it is not. */
module Wakeups {
  import opened ProcessModel
  import opened ProcessInvariant
  import opened ProcessSteps

  /** No process is blocked in a wait that one of its dead children satisfies. */
  ghost predicate NoLostWakeup(s: State) {
    forall w, c :: c in s.P(w).children && s.P(c).status == Zombie ==> !WaitsFor(s.P(w), s.P(c).pid)
  }

  /** Nobody starts to wait, nobody dies, no child is added. */
  ghost predicate Calm(s: State, t: State) {
    forall x :: CalmProc(s.P(x), t.P(x))
  }

  ghost predicate CalmProc(p: Proc, q: Proc) {
    && q.pid == p.pid && (q.status == Zombie ==> p.status == Zombie)
    && (forall c :: c in q.children ==> c in p.children)
    && (q.status == Waiting && q.callNum == DSOS_CALL_WAIT ==>
          p.status == Waiting && p.callNum == DSOS_CALL_WAIT && p.arg0 == q.arg0)
  }

  lemma CalmKeeps(s: State, t: State)
    requires NoLostWakeup(s) && Calm(s, t)
    ensures NoLostWakeup(t)
  {
    forall w, c | c in t.P(w).children && t.P(c).status == Zombie
      ensures !WaitsFor(t.P(w), t.P(c).pid)
    {
      assert CalmProc(s.P(w), t.P(w)) && CalmProc(s.P(c), t.P(c));
    }
  }

  lemma EnteredKeeps(s: State, op: Op)
    requires Inv(s) && s.running != NULL && NoLostWakeup(s)
    ensures NoLostWakeup(Entered(s, op))
  {
    CalmKeeps(s, Entered(s, op));
  }

  lemma {:induction false} WakeElapsedKeeps(s: State, k: nat)
    requires NoLostWakeup(s) && k <= |s.ready|
    ensures NoLostWakeup(WakeElapsed(s, k))
    decreases |s.timers|
  {
    if Elapsed(s) {
      CalmKeeps(s, WakeOne(s, k));
      WakeElapsedKeeps(WakeOne(s, k), k + 1);
    }
  }

  lemma ScheduleKeeps(s: State)
    requires NoLostWakeup(s)
    ensures NoLostWakeup(Schedule(s))
  {
    WakeElapsedKeeps(s, 0);
    CalmKeeps(WakeElapsed(s, 0), Rotate(WakeElapsed(s, 0)));
  }

  lemma SleepKeeps(s: State)
    requires NoLostWakeup(s) && s.Me().callNum == DSOS_CALL_SLEEP
    ensures NoLostWakeup(Sleep(s))
  {
    CalmKeeps(s, Sleep(s));
  }

  lemma SpawnKeeps(s: State)
    requires Inv(s) && s.running != NULL && CanSpawn(s) && NoLostWakeup(s)
    ensures NoLostWakeup(Spawn(s))
  {
    SpawnIsBirth(s);
    BirthChildren(s, Spawn(s), s.running, s.free[0]);
    SpawnProcs(s);
    var t, b := Spawn(s), s.free[0];
    forall w, c | c in t.P(w).children && t.P(c).status == Zombie
      ensures !WaitsFor(t.P(w), t.P(c).pid)
    {
      assert c != b && c in s.P(w).children;
    }
  }

  lemma SpawnProcs(s: State)
    requires Inv(s) && s.running != NULL && CanSpawn(s)
    ensures Spawn(s).P(s.free[0]).status == Ready
    ensures Spawn(s).Me().status != Waiting && Spawn(s).running == s.running
    ensures forall x :: x != s.free[0] && x != s.running ==> Spawn(s).P(x) == s.P(x)
    ensures Spawn(s).Me().status == s.Me().status && Spawn(s).Me().pid == s.Me().pid
  {
    Placed(s);
    assert InOnePlace(s, s.free[0]) && InOnePlace(s, s.running);
  }

  lemma {:induction false} ScanStops(s: State, children: seq<int>, pid: int)
    requires children != []
    ensures var k := Scan(s, children, pid);
            && (forall i :: 0 <= i < k ==> !Matches(s.P(children[i]), pid))
            && (k + 1 < |children| ==> Matches(s.P(children[k]), pid))
  {
    if |children| > 1 && !Matches(s.P(children[0]), pid) {
      ScanStops(s, children[1..], pid);
    }
  }

  /** wait blocks only when no dead child satisfies it. */
  lemma BlocksForGoodReason(s: State, c: int)
    requires Inv(s) && s.running != NULL && WaitBlocks(s)
    requires c in s.Me().children && s.P(c).status == Zombie
    ensures s.Me().arg0 != 0 && s.Me().arg0 != s.P(c).pid
  {
    var children, k := s.Me().children, Awaited(s);
    ScanStops(s, children, s.Me().arg0);
    var i :| 0 <= i < |children| && children[i] == c;
    assert ChildOk(s, s.running, c) && ChildOk(s, s.running, children[k]);
  }

  lemma BlockProcs(s: State)
    ensures forall x :: x != s.running ==> Next(Block(s)).P(x) == s.P(x)
    ensures var me := Next(Block(s)).P(s.running);
            && me.children == s.Me().children && me.pid == s.Me().pid && me.arg0 == s.Me().arg0
            && (me.status == Waiting || me.status == s.Me().status)
  {
  }

  lemma BlockKeeps(s: State)
    requires Inv(s) && s.running != NULL && NoLostWakeup(s) && WaitBlocks(s)
    ensures NoLostWakeup(Next(Block(s)))
  {
    var t := Next(Block(s));
    BlockProcs(s);
    forall w, c | c in t.P(w).children && t.P(c).status == Zombie
      ensures !WaitsFor(t.P(w), t.P(c).pid)
    {
      assert c in s.P(w).children && s.P(c).status == Zombie;
      if w == s.running {
        BlocksForGoodReason(s, c);
      }
    }
  }

  lemma ReapCalm(s: State)
    requires s.Me().children != [] && !WaitBlocks(s)
    ensures Calm(s, Wait(s))
  {
  }

  lemma WaitKeeps(s: State)
    requires Inv(s) && s.running != NULL && NoLostWakeup(s)
    ensures NoLostWakeup(Wait(s))
  {
    if s.Me().children == [] {
      CalmKeeps(s, Wait(s));
    } else if WaitBlocks(s) {
      BlockKeeps(s);
    } else {
      ReapCalm(s);
      CalmKeeps(s, Wait(s));
    }
  }

  // ---------- exit ----------

  /** init waits for the exiting process, which it adopted: the parent pointer names another process. */
  predicate OrphanAwaited(s: State) {
    s.running in s.P(s.init).children && s.Me().parent != s.init && WaitsFor(s.P(s.init), s.Me().pid)
  }

  /** The exiting process leaves init a dead child that init is already waiting for. */
  predicate DeadChildAwaited(s: State) {
    && !(s.Me().parent == s.init && ParentWaits(s))
    && exists z :: z in s.Me().children && s.P(z).status == Zombie && WaitsFor(s.P(s.init), s.P(z).pid)
  }

  /** What a caller can check before the exit. */
  predicate LosesWakeup(s: State) {
    OrphanAwaited(s) || DeadChildAwaited(s)
  }

  /** The end of the exiting process as others see it; `over` says that its parent takes over. */
  ghost predicate Ended(s: State, t: State, over: bool) {
    EndedStatuses(s, t) && EndedWaits(s, t, over) && EndedChildren(s, t, over)
  }

  ghost predicate EndedStatuses(s: State, t: State) {
    && (forall x :: t.P(x).pid == s.P(x).pid)
    && t.P(s.running).status == Zombie
    && (forall x :: x != s.running ==> (t.P(x).status == Zombie <==> s.P(x).status == Zombie))
  }

  ghost predicate EndedWaits(s: State, t: State, over: bool) {
    forall x, pid :: WaitsFor(t.P(x), pid) <==> WaitsFor(s.P(x), pid) && !(over && x == s.Me().parent)
  }

  ghost predicate EndedChildren(s: State, t: State, over: bool) {
    forall x, c :: c in t.P(x).children <==> ChildAfter(s, x, c) && (over ==> c != s.running)
  }

  /** c is a child of x once the children of the running process have gone to init. */
  ghost predicate ChildAfter(s: State, x: int, c: int) {
    if x == s.init then c in s.P(x).children || c in s.Me().children
    else x != s.running && c in s.P(x).children
  }

  lemma EndedLosesIff(s: State, t: State, over: bool)
    requires Inv(s) && s.running != NULL && s.running != s.init && NoLostWakeup(s)
    requires Ended(s, t, over) && over == ParentWaits(s)
    requires over ==> s.running in s.P(s.Me().parent).children
    ensures NoLostWakeup(t) <==> !LosesWakeup(s)
  {
    var r, p, i := s.running, s.Me().parent, s.init;
    Placed(s);
    assert InOnePlace(s, r);
    if OrphanAwaited(s) {
      assert over ==> p == i;
      assert r in t.P(i).children && t.P(r).status == Zombie && WaitsFor(t.P(i), t.P(r).pid);
    }
    if DeadChildAwaited(s) {
      var z :| z in s.P(r).children && s.P(z).status == Zombie && WaitsFor(s.P(i), s.P(z).pid);
      assert z in t.P(i).children && t.P(z).status == Zombie && WaitsFor(t.P(i), t.P(z).pid);
    }
    if !LosesWakeup(s) {
      forall w, c | c in t.P(w).children && t.P(c).status == Zombie
        ensures !WaitsFor(t.P(w), t.P(c).pid)
      {
        assert c in s.P(w).children ==> ChildOk(s, w, c);
        assert c in s.P(r).children ==> ChildOk(s, r, c);
      }
    }
  }

  lemma AdoptedChildren(s: State)
    requires Partition(s) && s.running != NULL && s.running != s.init && Live(s, s.init)
    ensures EndedChildren(s, Die(Adopt(s)), false)
  {
    DieIsAdoption(s);
  }

  /** From the death to the next running process n, which may change status, nothing else does. */
  ghost predicate Resumes(d: State, t: State, n: int) {
    && (forall x :: SameButChildren(d.P(x), t.P(x)))
    && (forall x :: x != n ==> t.P(x).status == d.P(x).status)
    && t.P(n).status == Running
  }

  lemma ResumedStatuses(s: State, d: State, t: State, n: int)
    requires Dying(s, d) && Resumes(d, t, n) && n != s.running && s.P(n).status != Zombie
    ensures EndedStatuses(s, t)
  {
    forall x ensures t.P(x).pid == s.P(x).pid {
      assert SameButChildren(s.P(x), d.P(x)) && SameButChildren(d.P(x), t.P(x));
    }
  }

  lemma ResumedWaits(s: State, d: State, t: State, n: int, over: bool)
    requires Dying(s, d) && Resumes(d, t, n) && s.Me().status != Waiting
    requires if over then n == s.Me().parent else s.P(n).status != Waiting
    ensures EndedWaits(s, t, over)
  {
    forall x, pid
      ensures WaitsFor(t.P(x), pid) <==> WaitsFor(s.P(x), pid) && !(over && x == s.Me().parent)
    {
      assert SameButChildren(s.P(x), d.P(x)) && SameButChildren(d.P(x), t.P(x));
    }
  }

  lemma HandOverResumes(s: State, d: State)
    requires Partition(s) && Dying(s, d) && s.Me().parent in s.waiting
    requires HasChild(d, s.Me().parent, s.Me().pid)
    ensures d.Me().parent == s.Me().parent && d.Me().pid == s.Me().pid
    ensures Resumes(d, HandOver(d), s.Me().parent)
  {
    assert SameButChildren(s.Me(), d.Me());
    Placed(s);
    assert InOnePlace(s, s.Me().parent);
    HandOverProcs(d);
  }

  lemma BuriedChildren(s: State, d: State, t: State, k: nat)
    requires ChildrenOk(s) && NoSharing(d) && Dying(s, d) && s.running != s.init
    requires EndedChildren(s, d, false) && Burial(d, t, s.Me().parent, k, s.running)
    requires s.Me().parent != s.running
    ensures EndedChildren(s, t, true) && s.running in s.P(s.Me().parent).children
  {
    BurialChildren(d, t, s.Me().parent, k, s.running);
    assert s.running in d.P(s.Me().parent).children;
    assert s.running in s.Me().children ==> ChildOk(s, s.running, s.running);
  }

  lemma HandOverEnded(s: State)
    requires Inv(s) && s.running != NULL && CanExit(s) && ParentWaits(Die(Adopt(s)))
    ensures Ended(s, Exit(s), true) && s.running in s.P(s.Me().parent).children
  {
    var d, t, p := Die(Adopt(s)), Exit(s), s.Me().parent;
    DieFamily(s);
    ParentIsListed(s, d);
    AdoptedChildren(s);
    Placed(s);
    assert InOnePlace(s, p) && InOnePlace(s, s.running);
    HandOverResumes(s, d);
    ResumedStatuses(s, d, t, p);
    ResumedWaits(s, d, t, p, true);
    HandOverIsBurial(s, d);
    BuriedChildren(s, d, t, FindPid(d, d.P(p).children, s.Me().pid));
  }

  lemma DispatchResumes(s: State, d: State)
    requires Partition(s) && Statuses(s) && Dying(s, d) && s.running != NULL && s.ready != []
    ensures Resumes(d, Dispatch(d), s.ready[0])
    ensures forall x :: Dispatch(d).P(x).children == d.P(x).children
    ensures s.ready[0] != s.running && s.P(s.ready[0]).status == Ready
  {
    Placed(s);
    assert InOnePlace(s, s.ready[0]);
  }

  lemma DispatchEnded(s: State)
    requires Inv(s) && s.running != NULL && CanExit(s) && !ParentWaits(Die(Adopt(s)))
    ensures Ended(s, Exit(s), false)
  {
    var d, t := Die(Adopt(s)), Exit(s);
    DieFields(s);
    AdoptedChildren(s);
    DispatchResumes(s, d);
    ResumedStatuses(s, d, t, s.ready[0]);
    ResumedWaits(s, d, t, s.ready[0], false);
  }

  lemma ParentWaitsSame(s: State)
    requires Inv(s) && s.running != NULL && s.running != s.init
    ensures ParentWaits(Die(Adopt(s))) == ParentWaits(s)
  {
    var d := Die(Adopt(s));
    DieFields(s);
    assert SameButChildren(s.Me(), d.Me());
    assert SameButChildren(s.P(s.Me().parent), d.P(s.Me().parent));
  }

  /** Exactly the exits that lose a wakeup. */
  lemma ExitLosesIff(s: State)
    requires Inv(s) && s.running != NULL && CanExit(s) && NoLostWakeup(s)
    ensures NoLostWakeup(Exit(s)) <==> !LosesWakeup(s)
  {
    ParentWaitsSame(s);
    if ParentWaits(s) {
      HandOverEnded(s);
    } else {
      DispatchEnded(s);
    }
    EndedLosesIff(s, Exit(s), ParentWaits(s));
  }

  lemma LosesOnEntry(s: State, value: int)
    requires Inv(s) && s.running != NULL && s.running != s.init
    ensures LosesWakeup(Enter(s, DSOS_CALL_EXIT, [value])) == LosesWakeup(s)
  {
    var e := Enter(s, DSOS_CALL_EXIT, [value]);
    Placed(s);
    assert InOnePlace(s, s.running);
    assert e.Me().children == s.Me().children && e.Me().parent == s.Me().parent && e.Me().pid == s.Me().pid;
    assert e.P(s.init) == s.P(s.init);
    assert ParentWaits(e) == ParentWaits(s);
    assert forall z :: e.P(z).status == s.P(z).status && e.P(z).pid == s.P(z).pid;
  }

  /** Every step keeps the property except exactly such an exit. */
  lemma StepLosesIff(s: State, op: Op)
    requires Inv(s) && CanStep(s, op) && NoLostWakeup(s)
    ensures NoLostWakeup(Step(s, op)) <==> !(op.ExitCall? && LosesWakeup(s))
  {
    hide Inv, NoLostWakeup, LosesWakeup;
    EnteredKeepsInv(s, op);
    EnteredKeeps(s, op);
    var e := Entered(s, op);
    if op.Tick? {
      CalmKeeps(s, Advance(s));
      ScheduleKeeps(Advance(s));
    } else if op.Preempt? {
      ScheduleKeeps(e);
    } else if op.SpawnCall? {
      SpawnKeeps(e);
    } else if op.SleepCall? {
      EnteredCall(s, DSOS_CALL_SLEEP, [op.cycles]);
      SleepKeeps(e);
    } else if op.WaitCall? {
      WaitKeeps(e);
    } else if op.ExitCall? {
      ExitLosesIff(e);
      LosesOnEntry(s, op.value);
    } else {
      CalmKeeps(e, Step(s, op));
    }
  }

  /** No exit of the run meets the losing condition. */
  ghost predicate CleanExits(s: State, ops: seq<Op>)
    requires ValidRun(s, ops)
    decreases |ops|
  {
    ops == [] || (!(ops[0].ExitCall? && LosesWakeup(s)) && CleanExits(Step(s, ops[0]), ops[1..]))
  }

  lemma {:induction false} RunNoLostWakeup(s: State, ops: seq<Op>)
    requires Inv(s) && NoLostWakeup(s) && ValidRun(s, ops) && CleanExits(s, ops)
    ensures NoLostWakeup(After(s, ops))
    decreases |ops|
  {
    if ops != [] {
      StepKeepsInv(s, ops[0]);
      StepLosesIff(s, ops[0]);
      RunNoLostWakeup(Step(s, ops[0]), ops[1..]);
    }
  }
}
