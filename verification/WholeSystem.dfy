/** Both state machines as one: which calls of the process layer touch descriptors, and when. */
module WholeSystem {
  import opened Sequences
  import P = ProcessModel
  import PI = ProcessInvariant
  import PB = Initial
  import PS = ProcessSteps
  import EV = ExitValues
  import R = ResourceModel
  import RD = Descriptors
  import RS = ResourceSteps

  const DSOS_CALL_OPEN_RESOURCE := 7
  const DSOS_CALL_CLOSE_RESOURCE := 8
  const DSOS_CALL_DESTROY_RESOURCE := 9
  const DSOS_CALL_MESSAGE_QUEUE_WRITE := 11
  const DSOS_CALL_MESSAGE_QUEUE_READ := 12

  datatype System = System(ps: P.State, rs: R.State)

  /** A resource call is made by the running process; `address` is that of its buffer. */
  datatype Op = ProcessOp(p: P.Op) | ResourceOp(r: R.Op, address: int)

  // ---------- steps ----------

  /** Resource calls that a process can make, and only in its own name. */
  predicate CallOf(r: R.Op, running: int) {
    match r
    case OpenOp(p, _, _, _) => p == running
    case CloseOp(p, _, _) => p == running
    case DestroyOp(_) => true
    case WriteOp(p, _, _, _) => p == running
    case ReadOp(p, _, _) => p == running
    case _ => false
  }

  /** The call as the process layer sees it: registers and results. */
  function AsCall(s: System, r: R.Op, address: int): P.Op
    requires R.CanStep(s.rs, r)
  {
    var ret := R.Perform(s.rs, r).ret;
    var result := if ret.Value? then ret.v else s.ps.Me().callResult;
    var value := if ret.Value? then s.ps.Me().returnValue else R.DSOS_MESSAGEQUEUEFULL;
    var blocks := if R.TakesSlot(s.rs, r) then 1 else 0;
    match r
    case OpenOp(_, id, kind, mode) => P.OtherCall(DSOS_CALL_OPEN_RESOURCE, [id, kind, mode], result, value, blocks)
    case CloseOp(_, fd, mode) => P.OtherCall(DSOS_CALL_CLOSE_RESOURCE, [fd, mode], result, value, 0)
    case DestroyOp(id) => P.OtherCall(DSOS_CALL_DESTROY_RESOURCE, [id], result, value, 0)
    case WriteOp(_, fd, _, length) =>
      P.OtherCall(DSOS_CALL_MESSAGE_QUEUE_WRITE, [fd, address, length], result, value, 0)
    case ReadOp(_, fd, length) =>
      P.OtherCall(DSOS_CALL_MESSAGE_QUEUE_READ, [fd, address, length], result, value, 0)
    case ReleaseOp(_) => P.OtherCall(DSOS_CALL_MESSAGE_QUEUE_READ, [], result, value, 0)
    case ResetOp(_) => P.OtherCall(DSOS_CALL_MESSAGE_QUEUE_READ, [], result, value, 0)
  }

  /** The open takes a slot of a message queue, and with it a PCBPtr block; without one the source follows a
      null pointer. */
  predicate HasBlock(s: System, r: R.Op) {
    R.TakesSlot(s.rs, r) ==> s.ps.ptrFree > 0
  }

  predicate CanDo(s: System, o: Op) {
    match o
    case ProcessOp(p) => !p.OtherCall? && P.CanStep(s.ps, p)
    case ResourceOp(r, _) =>
      s.ps.running != P.NULL && CallOf(r, s.ps.running) && R.CanStep(s.rs, r) && HasBlock(s, r)
  }

  /** The exit hands over to a waiting parent, and then releases the descriptors. */
  predicate Awaited(s: P.State, p: P.Op) {
    p.ExitCall? && P.ParentWaits(P.Die(P.Adopt(P.Entered(s, p))))
  }

  function Do(s: System, o: Op): System
    requires CanDo(s, o)
  {
    match o
    case ProcessOp(p) =>
      System(P.Step(s.ps, p),
            if Awaited(s.ps, p) then R.Release(s.rs, s.ps.running)
            else if p.SpawnCall? then R.Reset(s.rs, s.ps.free[0])
            else s.rs)
    case ResourceOp(r, address) => System(P.Step(s.ps, AsCall(s, r, address)), R.Step(s.rs, r))
  }

  // ---------- the invariant ----------

  ghost predicate Inv(s: System) {
    PI.Inv(s.ps) && RS.Inv(s.rs) && |s.rs.holders| == |s.ps.procs|
  }

  /** The process is dead or its block is free. */
  predicate Gone(s: P.State, b: int) {
    b in s.free || b in s.zombie
  }

  /** The dead hold no descriptors. */
  ghost predicate DeadHoldNothing(s: System) {
    forall b :: Gone(s.ps, b) ==> s.rs.H(b).descs == []
  }

  /** An exit without a waiting parent is made by a process that has closed everything. */
  predicate ClosesFirst(s: System, o: Op) {
    o.ProcessOp? && o.p.ExitCall? && !Awaited(s.ps, o.p) ==> s.rs.H(s.ps.running).descs == []
  }

  // ---------- who is gone ----------

  lemma {:induction false} WakeElapsedGone(s: P.State, k: nat)
    requires k <= |s.ready|
    ensures P.WakeElapsed(s, k).free == s.free && P.WakeElapsed(s, k).zombie == s.zombie
    ensures |P.WakeElapsed(s, k).procs| == |s.procs|
    decreases |s.timers|
  {
    if P.Elapsed(s) {
      WakeElapsedGone(P.WakeOne(s, k), k + 1);
    }
  }

  lemma ScheduleGone(s: P.State)
    ensures P.Schedule(s).free == s.free && P.Schedule(s).zombie == s.zombie && |P.Schedule(s).procs| == |s.procs|
  {
    WakeElapsedGone(s, 0);
    hide P.WakeElapsed;
  }

  lemma SpawnGone(s: P.State, b: int)
    requires P.CanSpawn(s)
    ensures Gone(P.Spawn(s), b) ==> Gone(s, b)
    ensures |P.Spawn(s).procs| == |s.procs|
  {
  }

  lemma SleepGone(s: P.State)
    ensures P.Sleep(s).free == s.free && P.Sleep(s).zombie == s.zombie && |P.Sleep(s).procs| == |s.procs|
  {
    hide P.AddTimer;
  }

  lemma RemoveIn(s: seq<int>, x: int, b: int)
    ensures b in Remove(s, x) ==> b in s
  {
    assert b in Remove(s, x) ==> b in multiset(Remove(s, x));
  }

  /** A reaped child was a zombie before. */
  lemma WaitGone(s: P.State, b: int)
    requires PI.Inv(s) && s.running != P.NULL
    ensures Gone(P.Wait(s), b) ==> Gone(s, b)
    ensures |P.Wait(s).procs| == |s.procs|
  {
    if EV.Reaps(s) {
      var c := s.Me().children[P.Awaited(s)];
      EV.ReapedChild(s);
      ReapedIsZombie(s, c);
      RemoveIn(s.zombie, c, b);
    }
    hide PI.Inv, Remove, RemoveAt, P.Store;
  }

  lemma ReapedIsZombie(s: P.State, c: int)
    requires PI.Inv(s) && c in s.Me().children && s.P(c).status == P.Zombie
    ensures c in s.zombie
  {
    assert PI.ChildOk(s, s.running, c);
    PI.ZombieIsListed(s, c);
  }

  lemma ExitGone(s: P.State, b: int)
    requires P.CanExit(s)
    ensures Gone(P.Exit(s), b) ==> Gone(s, b) || b == s.running
    ensures |P.Exit(s).procs| == |s.procs|
  {
    var d := P.Die(P.Adopt(s));
    assert d.free == s.free && d.zombie == s.zombie + [s.running] && d.running == s.running && |d.procs| == |s.procs|;
    RemoveIn(d.zombie, d.running, b);
    hide P.Die, P.Adopt, Remove, RemoveAt, P.DropTimers, P.Store, P.FindPid;
  }

  lemma EnteredGone(s: P.State, p: P.Op)
    ensures var e := P.Entered(s, p);
            e.free == s.free && e.zombie == s.zombie && e.running == s.running && |e.procs| == |s.procs|
  {
  }

  /** Only an exit adds to the dead, and then only the caller. */
  lemma GoneBefore(s: P.State, p: P.Op, b: int)
    requires PI.Inv(s) && P.CanStep(s, p)
    ensures Gone(P.Step(s, p), b) ==> Gone(s, b) || (p.ExitCall? && b == s.running)
    ensures |P.Step(s, p).procs| == |s.procs|
  {
    PS.EnteredKeepsInv(s, p);
    PS.CallIs(s, p);
    EnteredGone(s, p);
    var e := P.Entered(s, p);
    if p.Tick? || p.Preempt? {
      ScheduleGone(P.Advance(s));
      ScheduleGone(e);
      hide P.Schedule;
    } else {
      hide PI.Inv, P.CanStep, P.Step, P.Entered, P.Spawn, P.Sleep, P.Wait, P.Exit, P.CanSpawn, P.CanExit,
        PS.OnlyRegisters;
      match p
      case SpawnCall(_, _) => SpawnGone(e, b);
      case SleepCall(_) => SleepGone(e);
      case WaitCall(_, _) => WaitGone(e, b);
      case ExitCall(_) => ExitGone(e, b);
      case OtherCall(_, _, _, _, _) =>
    }
  }

  // ---------- whose descriptors change ----------

  lemma {:induction false} ReleaseOthers(s: R.State, p: int, q: int)
    requires p != q
    ensures R.Release(s, p).H(q) == s.H(q) && |R.Release(s, p).holders| == |s.holders|
    decreases |s.H(p).descs|
  {
    if s.H(p).descs != [] && 0 <= p < |s.holders| {
      var t := R.Unlink(s, p, s.H(p).descs[0]);
      UnlinkOthers(s, p, s.H(p).descs[0], q);
      RD.UnlinkedSizes(s, p, s.H(p).descs[0]);
      RS.ReleaseOne(s, p);
      hide R.Unlink, R.Release;
      ReleaseOthers(t, p, q);
    } else {
      hide R.Unlink;
    }
  }

  lemma UnlinkOthers(s: R.State, p: int, d: int, q: int)
    requires p != q
    ensures R.Unlink(s, p, d).H(q) == s.H(q) && |R.Unlink(s, p, d).holders| == |s.holders|
  {
    hide Remove;
  }

  lemma FinishOthers(s: R.State, p: int, h: int, mode: int, q: int)
    requires (s.freeDescs != [] ==> s.freePtrs != []) && p != q
    ensures R.Finish(s, p, h, mode).s.H(q) == s.H(q) && |R.Finish(s, p, h, mode).s.holders| == |s.holders|
  {
  }

  lemma OpenOthers(s: R.State, p: int, id: int, kind: int, mode: int, q: int)
    requires R.CanOpen(s, id, kind, mode) && p != q
    ensures R.Open(s, p, id, kind, mode).s.H(q) == s.H(q)
    ensures |R.Open(s, p, id, kind, mode).s.holders| == |s.holders|
  {
    var h := R.ById(s, s.listed, id);
    hide R.ById, R.Finish;
    if mode == R.DSOS_CREATE {
      if h == R.NULL {
        FinishOthers(R.NewResource(s, id, kind), p, R.FreeOf(s, kind)[0], mode, q);
      }
    } else {
      FinishOthers(s, p, h, mode, q);
      FinishOthers(R.TakeSlot(s, h, mode, p), p, h, mode, q);
    }
  }

  lemma CloseOthers(s: R.State, p: int, fd: int, mode: int, q: int)
    requires p != q
    ensures R.Close(s, p, fd, mode).s.H(q) == s.H(q) && |R.Close(s, p, fd, mode).s.holders| == |s.holders|
  {
    var d := R.ByFd(s, s.H(p).descs, fd);
    var h := s.D(d).res;
    var t := s.SetR(h, R.ClearSlot(s.R(h), mode));
    UnlinkOthers(s, p, d, q);
    UnlinkOthers(t, p, d, q);
    hide R.Unlink, R.ByFd;
  }

  /** A resource call changes the descriptors of its caller at most. */
  lemma CallOthers(s: R.State, r: R.Op, running: int, q: int)
    requires RS.Inv(s) && R.CanStep(s, r) && CallOf(r, running) && q != running
    ensures R.Step(s, r).H(q) == s.H(q) && |R.Step(s, r).holders| == |s.holders|
  {
    match r
    case OpenOp(p, id, kind, mode) =>
      hide RS.Inv, R.Open;
      OpenOthers(s, p, id, kind, mode, q);
    case CloseOp(p, fd, mode) =>
      hide RS.Inv, R.Close;
      CloseOthers(s, p, fd, mode, q);
    case DestroyOp(id) =>
      hide RS.Inv, R.Destroy;
      DestroyHolders(s, id);
    case WriteOp(p, fd, buffer, length) =>
      hide RS.Inv, R.Write;
      WriteHolders(s, p, fd, buffer, length);
    case ReadOp(p, fd, length) =>
      hide RS.Inv, R.Read;
      ReadHolders(s, p, fd, length);
  }

  lemma DestroyHolders(s: R.State, id: int)
    requires RS.Inv(s)
    ensures R.Destroy(s, id).s.holders == s.holders
  {
    RS.DestroyIs(s, id);
    var h := R.ById(s, s.listed, id);
    if h != R.NULL && s.R(h).ptrs == [] {
      RS.DestroyedKeeps(s, h);
      hide RS.Inv, R.Destroy, RS.Destroyed, R.ById;
    }
  }

  lemma WriteHolders(s: R.State, p: int, fd: int, buffer: seq<char>, length: int)
    requires R.CanWrite(s, p, fd, buffer, length)
    ensures R.Write(s, p, fd, buffer, length).s.holders == s.holders
  {
    hide R.QueueOf;
  }

  lemma ReadHolders(s: R.State, p: int, fd: int, length: int)
    ensures R.Read(s, p, fd, length).s.holders == s.holders
  {
    hide R.QueueOf;
  }

  // ---------- every step and every run ----------

  lemma ProcessKeepsInv(s: System, p: P.Op)
    requires Inv(s) && CanDo(s, ProcessOp(p))
    ensures Inv(Do(s, ProcessOp(p)))
  {
    PS.StepKeepsInv(s.ps, p);
    GoneBefore(s.ps, p, 0);
    var r, ps := s.ps.running, s.ps;
    Blocks(s, p);
    hide PI.Inv, RS.Inv, P.Step, P.CanStep, R.Release, R.Reset, Awaited;
    if Awaited(ps, p) {
      RS.ReleaseKeepsInv(s.rs, r);
      ReleaseOthers(s.rs, r, r + 1);
    } else if p.SpawnCall? {
      RS.ResetKeepsInv(s.rs, ps.free[0]);
      ResetSize(s.rs, ps.free[0]);
    }
  }

  lemma ProcessKeeps(s: System, p: P.Op)
    requires Inv(s) && CanDo(s, ProcessOp(p)) && RD.NoLeak(s.rs) && DeadHoldNothing(s)
    ensures Inv(Do(s, ProcessOp(p))) && RD.NoLeak(Do(s, ProcessOp(p)).rs)
  {
    var r, ps := s.ps.running, s.ps;
    ProcessKeepsInv(s, p);
    Caller(s, p);
    hide PI.Inv, RS.Inv, RD.NoLeak, P.Step, P.CanStep, R.Release, R.Reset, Awaited, DeadHoldNothing;
    if Awaited(ps, p) {
      RS.ReleaseKeepsInv(s.rs, r);
    } else if p.SpawnCall? {
      RS.ResetKeepsInv(s.rs, ps.free[0]);
    }
  }

  lemma ResetHolders(s: R.State, c: int, b: int)
    requires s.H(c).descs == []
    ensures R.Reset(s, c).H(b).descs == s.H(b).descs
  {
  }

  lemma ResetSize(s: R.State, b: int)
    ensures |R.Reset(s, b).holders| == |s.holders|
  {
  }

  /** The caller is a process, and the block of a new process is free. */
  lemma Blocks(s: System, p: P.Op)
    requires Inv(s) && P.CanStep(s.ps, p)
    ensures 0 <= s.ps.running < |s.rs.holders|
    ensures p.SpawnCall? ==> s.ps.free != [] && 0 <= s.ps.free[0] < |s.rs.holders| && Gone(s.ps, s.ps.free[0])
  {
    PI.Placed(s.ps);
    assert PI.InOnePlace(s.ps, s.ps.running);
    EnteredGone(s.ps, p);
    PS.CallIs(s.ps, p);
    if p.SpawnCall? {
      assert PI.InOnePlace(s.ps, s.ps.free[0]);
    }
  }

  /** The block of a new process holds nothing. */
  lemma Caller(s: System, p: P.Op)
    requires Inv(s) && P.CanStep(s.ps, p) && DeadHoldNothing(s)
    ensures 0 <= s.ps.running < |s.rs.holders|
    ensures p.SpawnCall? ==> s.ps.free != [] && 0 <= s.ps.free[0] < |s.rs.holders| && s.rs.H(s.ps.free[0]).descs == []
  {
    Blocks(s, p);
    hide Inv, P.CanStep;
  }

  lemma ResourceKeeps(s: System, r: R.Op, address: int)
    requires Inv(s) && CanDo(s, ResourceOp(r, address))
    ensures P.CanStep(s.ps, AsCall(s, r, address))
    ensures Inv(Do(s, ResourceOp(r, address)))
    ensures RD.NoLeak(s.rs) ==> RD.NoLeak(Do(s, ResourceOp(r, address)).rs)
  {
    var p := AsCall(s, r, address);
    PS.StepKeepsInv(s.ps, p);
    RS.StepKeepsInv(s.rs, r);
    GoneBefore(s.ps, p, 0);
    CallOthers(s.rs, r, s.ps.running, s.ps.running + 1);
    hide PI.Inv, RS.Inv, RD.NoLeak, P.Step, R.Step, R.CanStep, AsCall;
  }

  /** Who holds what after a step, for a process other than the caller. */
  lemma OthersHold(s: System, o: Op, b: int)
    requires Inv(s) && CanDo(s, o) && b != s.ps.running && DeadHoldNothing(s)
    ensures Do(s, o).rs.H(b).descs == s.rs.H(b).descs
  {
    match o
    case ProcessOp(p) =>
      Caller(s, p);
      hide P.CanStep, P.Step, R.Release, R.Reset, Awaited, PI.Inv, RS.Inv, DeadHoldNothing;
      ReleaseOthers(s.rs, s.ps.running, b);
      if p.SpawnCall? { ResetHolders(s.rs, s.ps.free[0], b); }
    case ResourceOp(r, address) =>
      CallOthers(s.rs, r, s.ps.running, b);
      hide R.Step, P.Step, R.CanStep, PI.Inv, RS.Inv, AsCall;
  }

  /** The caller after its exit: gone, and without descriptors exactly if they were released or none. */
  lemma CallerAfter(s: System, p: P.Op)
    requires Inv(s) && CanDo(s, ProcessOp(p)) && p.ExitCall? && DeadHoldNothing(s)
    ensures Gone(P.Step(s.ps, p), s.ps.running)
    ensures Do(s, ProcessOp(p)).rs.H(s.ps.running).descs == [] <==> ClosesFirst(s, ProcessOp(p))
  {
    var r := s.ps.running;
    Caller(s, p);
    EV.ExitReports(s.ps, p.value);
    EV.ExitLeavesValue(s.ps, p.value);
    if Awaited(s.ps, p) {
      RD.ReleaseKeeps(s.rs, r);
      PS.CallIs(s.ps, p);
      EnteredGone(s.ps, p);
      FreedByExit(P.Entered(s.ps, p));
    }
    hide PI.Inv, RS.Inv, P.Step, P.CanStep, R.Release, EV.Delivered;
  }

  lemma FreedByExit(s: P.State)
    requires P.CanExit(s) && P.ParentWaits(P.Die(P.Adopt(s)))
    ensures s.running in P.Exit(s).free
  {
    var d := P.Die(P.Adopt(s));
    assert d.running == s.running;
    hide P.Die, P.Adopt, Remove, RemoveAt, P.DropTimers, P.Store, P.FindPid;
  }

  /** Nobody who is running becomes dead except by an exit. */
  lemma RunnerLives(s: P.State)
    requires PI.Inv(s)
    ensures s.running != P.NULL ==> !Gone(s, s.running)
  {
    PI.Placed(s);
    assert PI.InOnePlace(s, s.running);
  }

  /** The dead hold no descriptors after a step if and only if it is not an exit, without a waiting parent, of
      a process that still has some open. */
  lemma StepDeadHoldNothing(s: System, o: Op)
    requires Inv(s) && CanDo(s, o) && DeadHoldNothing(s)
    requires o.ResourceOp? ==> P.CanStep(s.ps, AsCall(s, o.r, o.address))
    ensures DeadHoldNothing(Do(s, o)) <==> ClosesFirst(s, o)
  {
    var t, r := Do(s, o), s.ps.running;
    var p := if o.ProcessOp? then o.p else AsCall(s, o.r, o.address);
    RunnerLives(s.ps);
    forall b | Gone(t.ps, b) && b != r ensures t.rs.H(b).descs == [] {
      GoneBefore(s.ps, p, b);
      OthersHold(s, o, b);
    }
    GoneBefore(s.ps, p, r);
    if p.ExitCall? {
      CallerAfter(s, p);
    }
    hide Inv, Do, CanDo, P.Step, P.CanStep, Awaited, Gone;
    assert t.ps == P.Step(s.ps, p) by { StepOf(s, o, p); }
  }

  lemma StepOf(s: System, o: Op, p: P.Op)
    requires CanDo(s, o) && p == if o.ProcessOp? then o.p else AsCall(s, o.r, o.address)
    requires P.CanStep(s.ps, p)
    ensures Do(s, o).ps == P.Step(s.ps, p)
    ensures p.ExitCall? ==> o.ProcessOp?
  {
  }

  predicate ValidRun(s: System, ops: seq<Op>)
    decreases ops
  {
    ops == [] || (CanDo(s, ops[0]) && ValidRun(Do(s, ops[0]), ops[1..]))
  }

  function After(s: System, ops: seq<Op>): System
    requires ValidRun(s, ops)
    decreases ops
  {
    if ops == [] then s else After(Do(s, ops[0]), ops[1..])
  }

  predicate AllCloseFirst(s: System, ops: seq<Op>)
    requires ValidRun(s, ops)
    decreases ops
  {
    ops == [] || (ClosesFirst(s, ops[0]) && AllCloseFirst(Do(s, ops[0]), ops[1..]))
  }

  /** Every call of either layer keeps the invariants of both, whoever holds what. */
  lemma StepKeepsInv(s: System, o: Op)
    requires Inv(s) && CanDo(s, o)
    ensures Inv(Do(s, o))
  {
    hide Inv, CanDo, Do;
    if o.ProcessOp? {
      ProcessKeepsInv(s, o.p);
    } else {
      ResourceKeeps(s, o.r, o.address);
    }
  }

  lemma StepKeeps(s: System, o: Op)
    requires Inv(s) && RD.NoLeak(s.rs) && DeadHoldNothing(s) && CanDo(s, o)
    ensures Inv(Do(s, o)) && RD.NoLeak(Do(s, o).rs)
    ensures DeadHoldNothing(Do(s, o)) <==> ClosesFirst(s, o)
  {
    hide Inv, RD.NoLeak, DeadHoldNothing, CanDo, Do, ClosesFirst;
    if o.ProcessOp? {
      ProcessKeeps(s, o.p);
    } else {
      ResourceKeeps(s, o.r, o.address);
    }
    StepDeadHoldNothing(s, o);
  }

  lemma {:induction false} RunKeeps(s: System, ops: seq<Op>)
    requires Inv(s) && RD.NoLeak(s.rs) && DeadHoldNothing(s) && ValidRun(s, ops) && AllCloseFirst(s, ops)
    ensures Inv(After(s, ops)) && RD.NoLeak(After(s, ops).rs) && DeadHoldNothing(After(s, ops))
    decreases ops
  {
    if ops != [] {
      hide Inv, RD.NoLeak, DeadHoldNothing, CanDo, Do, ClosesFirst;
      StepKeeps(s, ops[0]);
      RunKeeps(Do(s, ops[0]), ops[1..]);
    }
  }

  /** The kernel when the first process starts. */
  function Boot(processes: nat, standard: nat, queues: nat, descriptors: nat, messages: nat): System
    requires processes > 0
  {
    System(P.Boot(processes), RS.Boot(standard, queues, descriptors, processes, messages))
  }

  lemma BootInv(processes: nat, standard: nat, queues: nat, descriptors: nat, messages: nat)
    requires processes > 0
    ensures Inv(Boot(processes, standard, queues, descriptors, messages))
    ensures RD.NoLeak(Boot(processes, standard, queues, descriptors, messages).rs)
    ensures DeadHoldNothing(Boot(processes, standard, queues, descriptors, messages))
  {
    var s := Boot(processes, standard, queues, descriptors, messages);
    PB.BootInv(processes);
    RS.BootInv(standard, queues, descriptors, processes, messages);
    assert forall p :: s.rs.H(p) == R.Holder(0, []);
    assert |s.ps.procs| == processes;
    hide PI.Inv, RS.Inv, RD.NoLeak, Gone;
  }

  /** From the start, over runs in which a process whose parent does not wait closes everything before it
      exits, the descriptors that processes hold and the entries of resources correspond one to one, and
      only the living hold any. */
  lemma BijectionInRuns(processes: nat, standard: nat, queues: nat, descriptors: nat, messages: nat,
                        ops: seq<Op>, d: int)
    requires processes > 0 && ValidRun(Boot(processes, standard, queues, descriptors, messages), ops)
    requires AllCloseFirst(Boot(processes, standard, queues, descriptors, messages), ops)
    ensures var t := After(Boot(processes, standard, queues, descriptors, messages), ops);
            && ((exists p :: d in t.rs.H(p).descs) <==> (exists h :: d in t.rs.R(h).ptrs))
            && (forall p, q :: d in t.rs.H(p).descs && d in t.rs.H(q).descs ==> p == q)
            && (forall h, k :: d in t.rs.R(h).ptrs && d in t.rs.R(k).ptrs ==> h == k)
            && (forall p :: d in t.rs.H(p).descs ==> !Gone(t.ps, p))
  {
    var s := Boot(processes, standard, queues, descriptors, messages);
    BootInv(processes, standard, queues, descriptors, messages);
    hide Boot, After, ValidRun, AllCloseFirst, RD.NoLeak, PI.Inv, Gone;
    RunKeeps(s, ops);
    var t := After(s, ops);
    assert RD.DescInv(t.rs);
    hide RS.Inv, RD.DescInv;
    RD.Bijection(t.rs, d);
  }
}
