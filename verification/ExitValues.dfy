/** A process leaves the system by handing its exit value to its parent, once and unchanged. */
module ExitValues {
  import opened Sequences
  import opened ProcessModel
  import opened ProcessInvariant
  import opened ProcessSteps

  /** Process `parent` learns that the process with this pid ended with this value. */
  datatype Delivery = Delivery(parent: int, pid: int, value: int)

  predicate Reaps(e: State) {
    e.Me().children != [] && !WaitBlocks(e)
  }

  function Delivered(s: State, op: Op): seq<Delivery>
    requires CanStep(s, op)
  {
    var e := Entered(s, op);
    if op.WaitCall? && Reaps(e) then
      var c := e.P(e.Me().children[Awaited(e)]);
      [Delivery(e.running, c.pid, c.returnValue)]
    else if op.ExitCall? && ParentWaits(Die(Adopt(e))) then
      [Delivery(e.Me().parent, e.Me().pid, op.value)]
    else []
  }

  function Deliveries(s: State, ops: seq<Op>): seq<Delivery>
    requires ValidRun(s, ops)
    decreases |ops|
  {
    if ops == [] then [] else Delivered(s, ops[0]) + Deliveries(Step(s, ops[0]), ops[1..])
  }

  /** The block that a step frees; a step frees at most one. */
  ghost predicate Buries(s: State, t: State, c: int) {
    && Live(s, c)
    && (forall b :: Live(t, b) <==> Live(s, b) && b != c)
    && (forall b :: t.P(b).pid == s.P(b).pid) && t.lastPid == s.lastPid
  }

  ghost predicate BuriesNobody(s: State, t: State) {
    && (forall b :: Live(s, b) ==> Live(t, b) && t.P(b).pid == s.P(b).pid)
    && (forall b :: Live(t, b) && !Live(s, b) ==> t.P(b).pid >= s.lastPid)
    && t.lastPid >= s.lastPid
  }

  lemma {:induction false} WakeElapsedQuiet(s: State, k: nat)
    requires k <= |s.ready|
    ensures Quiet(s, WakeElapsed(s, k))
    decreases |s.timers|
  {
    if Elapsed(s) {
      var u := WakeOne(s, k);
      WakeOneQuiet(s, k);
      WakeElapsedQuiet(u, k + 1);
      QuietTrans(s, u, WakeElapsed(u, k + 1));
    } else {
      assert forall b :: SameIdentity(s.P(b), s.P(b));
    }
  }

  lemma QuietTrans(s: State, t: State, u: State)
    requires Quiet(s, t) && Quiet(t, u)
    ensures Quiet(s, u)
  {
    forall b ensures SameIdentity(s.P(b), u.P(b)) {
      assert SameIdentity(s.P(b), t.P(b)) && SameIdentity(t.P(b), u.P(b));
    }
  }

  lemma ScheduleQuiet(s: State)
    ensures Quiet(s, Schedule(s))
  {
    WakeElapsedQuiet(s, 0);
    RotateQuiet(WakeElapsed(s, 0));
    QuietTrans(s, WakeElapsed(s, 0), Schedule(s));
  }

  lemma QuietBuriesNobody(s: State, t: State)
    requires Quiet(s, t)
    ensures BuriesNobody(s, t)
  {
    assert forall b :: SameIdentity(s.P(b), t.P(b));
    assert forall b :: Live(s, b) <==> Live(t, b);
  }

  lemma SpawnBuriesNobody(s: State)
    requires Inv(s) && s.running != NULL && CanSpawn(s)
    ensures BuriesNobody(s, Spawn(s))
  {
    SpawnLive(s);
    var t, b := Spawn(s), s.free[0];
    assert forall x :: x != b ==> t.P(x).pid == s.P(x).pid;
    Placed(s);
    assert InOnePlace(s, s.running);
    assert t.P(b).pid == s.lastPid;
  }

  lemma ExitBuries(s: State)
    requires Inv(s) && s.running != NULL && CanExit(s)
    ensures if ParentWaits(Die(Adopt(s))) then Buries(s, Exit(s), s.running) else BuriesNobody(s, Exit(s))
  {
    var d := Die(Adopt(s));
    DieFamily(s);
    assert forall x :: Live(d, x) <==> Live(s, x);
    Placed(s);
    assert InOnePlace(s, s.running);
    forall x ensures d.P(x).pid == s.P(x).pid { assert SameButChildren(s.P(x), d.P(x)); }
    if ParentWaits(d) {
      ParentIsListed(s, d);
      HandOverIsBurial(s, d);
    } else {
      DispatchQuiet(d);
      QuietBuriesNobody(d, Exit(s));
    }
  }

  /** Which process, if any, wait reaps. */
  lemma ReapedChild(s: State)
    requires Inv(s) && s.running != NULL && Reaps(s)
    ensures s.Me().children[Awaited(s)] in s.zombie
    ensures Buries(s, Wait(s), s.Me().children[Awaited(s)])
  {
    var c := s.Me().children[Awaited(s)];
    assert ChildOk(s, s.running, c);
    ZombieIsListed(s, c);
    ReapIsBurial(s, Awaited(s));
  }

  lemma NoReapQuiet(s: State)
    requires !Reaps(s)
    ensures Quiet(s, Wait(s))
  {
  }

  /** The block whose process the delivery is about. */
  function Leaver(s: State, op: Op): int
    requires CanStep(s, op)
  {
    var e := Entered(s, op);
    if op.WaitCall? && Reaps(e) then e.Me().children[Awaited(e)] else e.running
  }

  /** What a step does to who is alive. */
  ghost predicate Toll(s: State, op: Op, t: State)
    requires CanStep(s, op)
  {
    if Delivered(s, op) == [] then BuriesNobody(s, t)
    else Buries(s, t, Leaver(s, op)) && Delivered(s, op)[0].pid == s.P(Leaver(s, op)).pid
  }

  lemma TollFromEntry(s: State, op: Op, t: State)
    requires Inv(s) && CanStep(s, op)
    requires var e := Entered(s, op);
             if Delivered(s, op) == [] then BuriesNobody(e, t) else Buries(e, t, Leaver(s, op))
    ensures Toll(s, op, t)
  {
    hide Inv, CanStep, Entered, Delivered, Leaver;
    var e := Entered(s, op);
    EnteredKeepsInv(s, op);
    DeliveredPid(s, op);
    forall b ensures e.P(b).pid == s.P(b).pid && (Live(e, b) <==> Live(s, b)) {
      assert SameIdentity(s.P(b), e.P(b));
    }
  }

  lemma DeliveredPid(s: State, op: Op)
    requires CanStep(s, op)
    ensures Delivered(s, op) != [] ==> |Delivered(s, op)| == 1
    ensures Delivered(s, op) != [] ==> Delivered(s, op)[0].pid == Entered(s, op).P(Leaver(s, op)).pid
  {
  }

  lemma ScheduleToll(s: State, op: Op)
    requires Inv(s) && CanStep(s, op) && (op.Tick? || op.Preempt?)
    ensures Toll(s, op, Step(s, op))
  {
    hide Inv;
    if op.Tick? {
      ScheduleQuiet(Advance(s));
      QuietBuriesNobody(Advance(s), Step(s, op));
    } else {
      ScheduleQuiet(Entered(s, op));
      QuietBuriesNobody(Entered(s, op), Step(s, op));
      TollFromEntry(s, op, Step(s, op));
    }
  }

  lemma WaitToll(s: State, op: Op)
    requires Inv(s) && CanStep(s, op) && op.WaitCall?
    ensures Toll(s, op, Step(s, op))
  {
    EnteredKeepsInv(s, op);
    var e := Entered(s, op);
    if Reaps(e) {
      ReapedChild(e);
    } else {
      NoReapQuiet(e);
      QuietBuriesNobody(e, Step(s, op));
    }
    TollFromEntry(s, op, Step(s, op));
  }

  lemma SleepQuiet(s: State)
    ensures Quiet(s, Sleep(s))
  {
  }

  /** Of these calls only an exit with a waiting parent reports something. */
  lemma NothingDelivered(s: State, op: Op)
    requires CanStep(s, op) && !op.WaitCall?
    ensures Delivered(s, op) != [] <==> op.ExitCall? && ParentWaits(Die(Adopt(Entered(s, op))))
    ensures Leaver(s, op) == Entered(s, op).running
  {
    hide Die, Adopt, ParentWaits, Entered;
  }

  lemma CallToll(s: State, op: Op)
    requires Inv(s) && CanStep(s, op) && (op.SpawnCall? || op.SleepCall? || op.ExitCall? || op.OtherCall?)
    ensures Toll(s, op, Step(s, op))
  {
    EnteredKeepsInv(s, op);
    CallIs(s, op);
    NothingDelivered(s, op);
    var e := Entered(s, op);
    hide Inv, Step, CanStep, Entered, OnlyRegisters, Spawn, Exit, Sleep, CanSpawn, CanExit, Delivered, Leaver,
      Toll, Quiet, BuriesNobody, Buries, Die, Adopt, ParentWaits;
    if op.SpawnCall? {
      SpawnBuriesNobody(e);
    } else if op.SleepCall? {
      SleepQuiet(e);
      QuietBuriesNobody(e, Step(s, op));
    } else if op.ExitCall? {
      ExitBuries(e);
    } else {
      OtherQuiet(e, op.result, op.returnValue, op.blocks);
      QuietBuriesNobody(e, Step(s, op));
    }
    TollFromEntry(s, op, Step(s, op));
  }

  lemma OtherQuiet(s: State, result: int, exitValue: int, blocks: nat)
    requires blocks <= s.ptrFree
    ensures Quiet(s, Answer(s, result, exitValue, blocks))
  {
  }

  lemma StepToll(s: State, op: Op)
    requires Inv(s) && CanStep(s, op)
    ensures Toll(s, op, Step(s, op))
  {
    hide Inv, CanStep, Step, Toll;
    if op.Tick? || op.Preempt? {
      ScheduleToll(s, op);
    } else if op.WaitCall? {
      WaitToll(s, op);
    } else {
      CallToll(s, op);
    }
  }

  lemma LivePids(s: State)
    requires Inv(s)
    ensures Pids(s)
  {
  }

  /** A process leaves the system exactly when its end is delivered. */
  lemma LeavesByDelivery(s: State, op: Op, b: int)
    requires Inv(s) && CanStep(s, op) && Live(s, b)
    ensures !Live(Step(s, op), b) <==> exists i :: 0 <= i < |Delivered(s, op)| && Delivered(s, op)[i].pid == s.P(b).pid
  {
    hide Inv, CanStep, Step, Entered, Delivered, Leaver;
    StepToll(s, op);
    DeliveredPid(s, op);
    LivePids(s);
  }

  // ---------- at most once ----------

  /** The process with this pid has come and gone. */
  ghost predicate Gone(s: State, pid: int) {
    pid < s.lastPid && forall b :: Live(s, b) ==> s.P(b).pid != pid
  }

  lemma GoneStaysGone(s: State, op: Op, pid: int)
    requires Inv(s) && CanStep(s, op) && Gone(s, pid)
    ensures Gone(Step(s, op), pid) && forall d :: d in Delivered(s, op) ==> d.pid != pid
  {
    hide Inv, CanStep, Step, Entered, Delivered, Leaver;
    StepToll(s, op);
    DeliveredPid(s, op);
  }

  lemma DeliveredIsGone(s: State, op: Op)
    requires Inv(s) && CanStep(s, op)
    ensures forall d :: d in Delivered(s, op) ==> Gone(Step(s, op), d.pid)
  {
    hide Inv, CanStep, Step, Entered, Delivered, Leaver;
    StepToll(s, op);
    DeliveredPid(s, op);
    LivePids(s);
  }

  lemma {:induction false} GoneNeverDelivered(s: State, ops: seq<Op>, pid: int)
    requires Inv(s) && ValidRun(s, ops) && Gone(s, pid)
    ensures forall d :: d in Deliveries(s, ops) ==> d.pid != pid
    decreases |ops|
  {
    hide CanStep, Step, Delivered, Inv, Gone;
    if ops != [] {
      StepKeepsInv(s, ops[0]);
      GoneStaysGone(s, ops[0], pid);
      GoneNeverDelivered(Step(s, ops[0]), ops[1..], pid);
    }
  }

  ghost predicate DistinctPids(ds: seq<Delivery>) {
    forall i, j :: 0 <= i < j < |ds| ==> ds[i].pid != ds[j].pid
  }

  /** Over a whole run, no process is reported twice. */
  lemma {:induction false} DeliveredOnce(s: State, ops: seq<Op>)
    requires Inv(s) && ValidRun(s, ops)
    ensures DistinctPids(Deliveries(s, ops))
    decreases |ops|
  {
    hide CanStep, Step, Inv, Gone;
    if ops != [] {
      StepKeepsInv(s, ops[0]);
      DeliveredOnce(Step(s, ops[0]), ops[1..]);
      DeliveredIsGone(s, ops[0]);
      var first, rest := Delivered(s, ops[0]), Deliveries(Step(s, ops[0]), ops[1..]);
      assert |first| <= 1;
      if first != [] {
        assert first[0] in first;
        GoneNeverDelivered(Step(s, ops[0]), ops[1..], first[0].pid);
        assert forall j :: 0 <= j < |rest| ==> rest[j] in rest;
      }
    }
  }

  // ---------- unchanged ----------

  lemma ZombieApart(s: State, c: int)
    requires Inv(s) && c in s.zombie
    ensures Live(s, c) && c != s.running && c != s.init && c !in s.ready && c !in s.waiting && c !in s.free
  {
    Placed(s);
    assert InOnePlace(s, c);
  }

  lemma EnteredZombies(s: State, op: Op, c: int)
    requires Inv(s) && c in s.zombie
    ensures Entered(s, op).P(c) == s.P(c) && Entered(s, op).zombie == s.zombie
  {
    ZombieApart(s, c);
  }

  lemma {:induction false} WakeElapsedZombies(s: State, k: nat, c: int)
    requires Inv(s) && k <= |s.ready| && c in s.zombie
    ensures WakeElapsed(s, k).P(c) == s.P(c) && WakeElapsed(s, k).zombie == s.zombie
    decreases |s.timers|
  {
    if Elapsed(s) {
      ZombieApart(s, c);
      assert s.timers[0].pcb in s.waiting;
      WakeOneKeepsInv(s, k);
      WakeElapsedZombies(WakeOne(s, k), k + 1, c);
    }
  }

  lemma ScheduleZombies(s: State, c: int)
    requires Inv(s) && c in s.zombie
    ensures Schedule(s).P(c) == s.P(c) && Schedule(s).zombie == s.zombie
  {
    WakeElapsedZombies(s, 0, c);
    WakeElapsedKeepsInv(s, 0);
    ZombieApart(WakeElapsed(s, 0), c);
  }

  lemma SpawnZombies(s: State, c: int)
    requires Inv(s) && CanSpawn(s) && c in s.zombie
    ensures Spawn(s).P(c) == s.P(c) && Spawn(s).zombie == s.zombie
  {
    ZombieApart(s, c);
  }

  lemma BlockZombies(s: State, timers: seq<Timer>, c: int)
    requires Inv(s) && c in s.zombie
    ensures Next(Block(s.(timers := timers))).P(c) == s.P(c)
    ensures Next(Block(s.(timers := timers))).zombie == s.zombie
  {
    ZombieApart(s, c);
  }

  lemma ReapZombies(s: State, k: nat, c: int)
    requires Inv(s) && k < |s.Me().children| && c in s.zombie
    ensures Reap(s, k).P(c) == s.P(c)
    ensures c != s.Me().children[k] ==> c in Reap(s, k).zombie
  {
    ZombieApart(s, c);
    Placed(s);
    RemoveMembers(s.zombie, s.Me().children[k]);
  }

  lemma ExitZombies(s: State, c: int)
    requires Inv(s) && s.running != NULL && CanExit(s) && c in s.zombie
    ensures Exit(s).P(c).pid == s.P(c).pid && Exit(s).P(c).returnValue == s.P(c).returnValue
    ensures c in Exit(s).zombie
  {
    var d := Die(Adopt(s));
    ZombieApart(s, c);
    DieFields(s);
    assert SameButChildren(s.P(c), d.P(c));
    if ParentWaits(d) {
      ParentIsListed(s, d);
      HandOverFields(s, d);
      assert d.Me().parent in s.waiting;
    }
  }

  /** The zombie c stays as it is unless this step delivers its end. */
  ghost predicate Spares(s: State, t: State, c: int) {
    c in t.zombie && t.P(c).pid == s.P(c).pid && t.P(c).returnValue == s.P(c).returnValue
  }

  lemma ScheduleSpares(s: State, op: Op, c: int)
    requires Inv(s) && CanStep(s, op) && (op.Tick? || op.Preempt?) && c in s.zombie
    ensures Spares(s, Step(s, op), c)
  {
    if op.Tick? {
      RegistersKeepInv(s, Advance(s));
      ScheduleZombies(Advance(s), c);
    } else {
      EnteredKeepsInv(s, op);
      EnteredZombies(s, op, c);
      ScheduleZombies(Entered(s, op), c);
    }
  }

  lemma WaitSpares(s: State, op: Op, c: int)
    requires Inv(s) && CanStep(s, op) && op.WaitCall? && c in s.zombie
    ensures Spares(s, Step(s, op), c) || Delivered(s, op) == [Delivery(s.running, s.P(c).pid, s.P(c).returnValue)]
  {
    EnteredKeepsInv(s, op);
    EnteredZombies(s, op, c);
    var e := Entered(s, op);
    if Reaps(e) {
      ReapZombies(e, Awaited(e), c);
    } else if WaitBlocks(e) {
      BlockZombies(e, e.timers, c);
      assert e.(timers := e.timers) == e;
    } else {
      ZombieApart(e, c);
    }
  }

  lemma CallSpares(s: State, op: Op, c: int)
    requires Inv(s) && CanStep(s, op) && (op.SpawnCall? || op.SleepCall? || op.ExitCall?)
    requires c in s.zombie
    ensures Spares(s, Step(s, op), c)
  {
    EnteredKeepsInv(s, op);
    EnteredZombies(s, op, c);
    CallIs(s, op);
    var e := Entered(s, op);
    hide Inv, Step, CanStep, Entered, OnlyRegisters, Spawn, Exit, Sleep, CanSpawn, CanExit;
    if op.SpawnCall? {
      SpawnZombies(e, c);
    } else if op.ExitCall? {
      ExitZombies(e, c);
    } else {
      SleepZombies(e, c);
    }
  }

  lemma SleepZombies(s: State, c: int)
    requires Inv(s) && c in s.zombie
    ensures Sleep(s).P(c).pid == s.P(c).pid && Sleep(s).P(c).returnValue == s.P(c).returnValue
    ensures c in Sleep(s).zombie
  {
    ZombieApart(s, c);
    BlockZombies(s, AddTimer(s.timers, Timer(s.time + s.Me().arg0, s.running)), c);
  }

  lemma OtherSpares(s: State, op: Op, c: int)
    requires Inv(s) && CanStep(s, op) && op.OtherCall? && c in s.zombie
    ensures Spares(s, Step(s, op), c)
  {
    EnteredZombies(s, op, c);
    ZombieApart(s, c);
  }

  /** Zombies do not change; the one that leaves is reported with the value it holds. */
  lemma StepSpares(s: State, op: Op, c: int)
    requires Inv(s) && CanStep(s, op) && c in s.zombie
    ensures Spares(s, Step(s, op), c) ||
            exists p :: Delivered(s, op) == [Delivery(p, s.P(c).pid, s.P(c).returnValue)]
  {
    hide Inv, CanStep, Step, Delivered;
    if op.Tick? || op.Preempt? {
      ScheduleSpares(s, op, c);
    } else if op.WaitCall? {
      WaitSpares(s, op, c);
    } else if op.OtherCall? {
      OtherSpares(s, op, c);
    } else {
      CallSpares(s, op, c);
    }
  }

  /** Whatever a step reports about the pid of the zombie c is about c. */
  lemma DeliveryIsAboutZombie(s: State, op: Op, c: int)
    requires Inv(s) && CanStep(s, op) && c in s.zombie && Spares(s, Step(s, op), c)
    ensures forall d :: d in Delivered(s, op) ==> d.pid != s.P(c).pid
  {
    hide CanStep, Step, Entered, Delivered, Leaver, Inv;
    ZombieApart(s, c);
    StepKeepsInv(s, op);
    ZombieApart(Step(s, op), c);
    LeavesByDelivery(s, op, c);
    forall d | d in Delivered(s, op) ensures d.pid != s.P(c).pid {
      var i :| 0 <= i < |Delivered(s, op)| && Delivered(s, op)[i] == d;
    }
  }

  /** The value a zombie holds is the one its parent will get. */
  lemma {:induction false} ZombieDelivered(s: State, ops: seq<Op>, c: int)
    requires Inv(s) && ValidRun(s, ops) && c in s.zombie
    ensures forall d :: d in Deliveries(s, ops) && d.pid == s.P(c).pid ==> d.value == s.P(c).returnValue
    decreases |ops|
  {
    hide CanStep, Step, Delivered, Inv;
    if ops != [] {
      var t := Step(s, ops[0]);
      StepKeepsInv(s, ops[0]);
      StepSpares(s, ops[0], c);
      if Spares(s, t, c) {
        DeliveryIsAboutZombie(s, ops[0], c);
        ZombieDelivered(t, ops[1..], c);
      } else {
        DeliveredIsGone(s, ops[0]);
        var p :| Delivered(s, ops[0]) == [Delivery(p, s.P(c).pid, s.P(c).returnValue)];
        assert Delivered(s, ops[0])[0] in Delivered(s, ops[0]);
        GoneNeverDelivered(t, ops[1..], s.P(c).pid);
      }
    }
  }

  lemma ExitLeavesValue(s: State, value: int)
    requires Inv(s) && CanStep(s, ExitCall(value))
    ensures var t := Step(s, ExitCall(value));
            if Delivered(s, ExitCall(value)) == [] then
              && s.running in t.zombie
              && t.P(s.running).pid == s.Me().pid && t.P(s.running).returnValue == value
            else Delivered(s, ExitCall(value)) == [Delivery(s.Me().parent, s.Me().pid, value)]
  {
    var op := ExitCall(value);
    EnteredKeepsInv(s, op);
    EnteredCall(s, DSOS_CALL_EXIT, [value]);
    CallIs(s, op);
    ExitReports(s, value);
    EnteredOwner(s, value);
    var e := Entered(s, op);
    hide Inv, CanStep, Step, Delivered, Entered, Exit, CanExit, OnlyRegisters, Enter;
    if !ParentWaits(Die(Adopt(e))) {
      ExitKeepsValue(e);
    }
  }

  lemma ExitReports(s: State, value: int)
    requires CanStep(s, ExitCall(value))
    ensures var e := Entered(s, ExitCall(value));
            Delivered(s, ExitCall(value))
            == if ParentWaits(Die(Adopt(e))) then [Delivery(e.Me().parent, e.Me().pid, value)] else []
  {
    hide Die, Adopt, ParentWaits, Entered;
  }

  lemma EnteredOwner(s: State, value: int)
    ensures var e := Entered(s, ExitCall(value));
            e == Enter(s, DSOS_CALL_EXIT, [value]) && e.running == s.running
            && e.Me().parent == s.Me().parent && e.Me().pid == s.Me().pid
  {
  }

  /** Without a waiting parent the dead process stays as a zombie that holds its exit value. */
  lemma ExitKeepsValue(s: State)
    requires Inv(s) && s.running != NULL && CanExit(s) && !ParentWaits(Die(Adopt(s)))
    ensures var t := Exit(s);
            s.running in t.zombie && t.P(s.running).pid == s.Me().pid && t.P(s.running).returnValue == s.Me().arg0
  {
    var d := Die(Adopt(s));
    DieFields(s);
    assert SameButChildren(s.Me(), d.Me());
    Placed(s);
    assert InOnePlace(s, s.ready[0]);
    assert InOnePlace(s, s.running);
  }

  /** Every report of the exiting process carries the value it passed to exit. */
  lemma DeliveredUnchanged(s: State, value: int, ops: seq<Op>)
    requires Inv(s) && CanStep(s, ExitCall(value)) && ValidRun(Step(s, ExitCall(value)), ops)
    ensures forall d :: d in Delivered(s, ExitCall(value)) + Deliveries(Step(s, ExitCall(value)), ops) ==>
              d.pid == s.Me().pid ==> d.value == value
  {
    hide CanStep, Step, Delivered, Inv;
    var op := ExitCall(value);
    ExitLeavesValue(s, value);
    StepKeepsInv(s, op);
    if Delivered(s, op) == [] {
      ZombieDelivered(Step(s, op), ops, s.running);
    } else {
      DeliveredIsGone(s, op);
      assert Delivered(s, op)[0] in Delivered(s, op);
      GoneNeverDelivered(Step(s, op), ops, s.Me().pid);
    }
  }

  /** The receiver of the report runs and finds the pid as its result and the value at the address. */
  ghost predicate Received(t: State, d: Delivery, address: int) {
    && t.running == d.parent && t.Me().callResult == d.pid
    && (address != 0 ==> address in t.memory && t.memory[address] == d.value)
  }

  lemma ReapReceived(s: State)
    requires Inv(s) && s.running != NULL && Reaps(s)
    ensures var c := s.P(s.Me().children[Awaited(s)]);
            Received(Wait(s), Delivery(s.running, c.pid, c.returnValue), s.Me().arg1)
  {
    Placed(s);
    assert InOnePlace(s, s.running);
  }

  lemma HandOverReceived(s: State)
    requires Inv(s) && s.running != NULL && CanExit(s) && ParentWaits(Die(Adopt(s)))
    ensures Received(Exit(s), Delivery(s.Me().parent, s.Me().pid, s.Me().arg0), s.P(s.Me().parent).arg1)
    ensures s.running in s.P(s.Me().parent).children
  {
    var d := Die(Adopt(s));
    DieFamily(s);
    ParentIsListed(s, d);
    Placed(s);
    assert InOnePlace(s, s.Me().parent) && InOnePlace(s, s.running);
    FindsItself(d, s.Me().parent);
    DieIsAdoption(s);
    assert s.running in d.P(s.Me().parent).children;
    assert s.running in s.Me().children ==> ChildOk(s, s.running, s.running);
  }

  /** The receiver is the process whose child it was, and it runs next.  Its wait, this one or the one in which it
      was blocked, named the address. */
  lemma DeliveryReceived(s: State, op: Op)
    requires Inv(s) && CanStep(s, op) && Delivered(s, op) != []
    ensures var d := Delivered(s, op)[0];
            && Received(Step(s, op), d, if op.WaitCall? then op.result else s.P(d.parent).arg1)
            && Leaver(s, op) in s.P(d.parent).children
  {
    EnteredKeepsInv(s, op);
    var e := Entered(s, op);
    EntryChildren(s, op);
    if op.WaitCall? {
      EnteredCall(s, DSOS_CALL_WAIT, [op.pid, op.result]);
      hide Inv;
      ReapReceived(e);
    } else {
      EnteredCall(s, DSOS_CALL_EXIT, [op.value]);
      ParentIsAnother(e);
      hide Inv;
      HandOverReceived(e);
    }
  }

  /** The parent that takes over is another process. */
  lemma ParentIsAnother(s: State)
    requires Inv(s) && s.running != NULL && s.running != s.init && ParentWaits(Die(Adopt(s)))
    ensures s.Me().parent != s.running
  {
    DieFields(s);
    ParentIsListed(s, Die(Adopt(s)));
    Placed(s);
    assert InOnePlace(s, s.Me().parent);
  }

  lemma EntryChildren(s: State, op: Op)
    requires Inv(s)
    ensures forall x :: Entered(s, op).P(x).children == s.P(x).children
    ensures Entered(s, op).running == s.running
  {
    EnteredKeepsInv(s, op);
    forall x ensures Entered(s, op).P(x).children == s.P(x).children {
      assert SameIdentity(s.P(x), Entered(s, op).P(x));
    }
  }
}
