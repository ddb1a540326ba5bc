/** What the caller of a resource call reads in its registers, for the whole system, and what process calls change in
    the resource part. */
module SystemAnswers {
  import P = ProcessModel
  import PI = ProcessInvariant
  import PS = ProcessSteps
  import EV = ExitValues
  import PE = ProcessEffects
  import R = ResourceModel
  import RS = ResourceSteps
  import RE = ResourceEffects
  import opened WholeSystem
  import opened Projection

  // ---------- the registers of the caller ----------

  /** The open takes the slot of a queue: nothing stands in its way. */
  ghost predicate GivesSlot(s: R.State, r: R.Op) {
    r.OpenOp? && r.kind == 1 && (r.mode == 2 || r.mode == 3)
    && (exists h :: RE.Named(s, h, r.id) && SlotFree(s, h, r.mode))
  }

  ghost predicate SlotFree(s: R.State, h: int, mode: int) {
    s.R(h).kind == 1 && (if mode == 2 then s.R(h).reader else s.R(h).writer) == -1
  }

  lemma GivesIsTakes(s: R.State, r: R.Op)
    requires RS.Inv(s)
    ensures R.TakesSlot(s, r) <==> GivesSlot(s, r)
  {
    if r.OpenOp? {
      var h := R.ById(s, s.listed, r.id);
      RE.Lookup(s, r.id, h);
      forall k | RE.Named(s, k, r.id) ensures k == h { RE.Lookup(s, r.id, k); RE.NamedResolves(s, k, r.id); }
    }
    hide RS.Inv;
  }

  /** Number, first two arguments, result and exit value of the caller; `ret` is the answer of the call. */
  ghost predicate Reports(p: P.Proc, q: P.Proc, r: R.Op, address: int, ret: R.Ret) {
    && q.callResult == (if ret.Value? then ret.v else p.callResult)
    && q.returnValue == (if ret.Value? then p.returnValue else -18)
    && match r
       case OpenOp(_, id, kind, _) => PE.Registers(q, 7, id, kind)
       case CloseOp(_, fd, mode) => PE.Registers(q, 8, fd, mode)
       case DestroyOp(id) => PE.Registers(q, 9, id, p.arg1)
       case WriteOp(_, fd, _, _) => PE.Registers(q, 11, fd, address)
       case ReadOp(_, fd, _) => PE.Registers(q, 12, fd, address)
       case _ => true
  }

  /** The call as the process part sees it. */
  ghost predicate CalledAs(me: P.Proc, p: P.Op, r: R.Op, address: int, ret: R.Ret) {
    && p.OtherCall? && p.result == (if ret.Value? then ret.v else me.callResult)
    && p.returnValue == (if ret.Value? then me.returnValue else -18)
    && match r
       case OpenOp(_, id, kind, mode) => p.num == 7 && p.callArgs == [id, kind, mode]
       case CloseOp(_, fd, mode) => p.num == 8 && p.callArgs == [fd, mode]
       case DestroyOp(id) => p.num == 9 && p.callArgs == [id]
       case WriteOp(_, fd, _, length) => p.num == 11 && p.callArgs == [fd, address, length]
       case ReadOp(_, fd, length) => p.num == 12 && p.callArgs == [fd, address, length]
       case _ => true
  }

  lemma CallIs(s: System, r: R.Op, address: int)
    requires R.CanStep(s.rs, r) && CallOf(r, s.ps.running)
    ensures CalledAs(s.ps.Me(), AsCall(s, r, address), r, address, R.Perform(s.rs, r).ret)
    ensures AsCall(s, r, address).blocks == if R.TakesSlot(s.rs, r) then 1 else 0
  {
    hide R.Perform, R.CanStep, R.ById, R.SlotTaken;
  }

  lemma LoadedReports(s: P.State, e: P.State, t: P.State, p: P.Op, r: R.Op, address: int, ret: R.Ret)
    requires p.OtherCall? && PE.Loaded(s, e, p.num, p.callArgs) && PE.Answered(e, t, p.result, p.returnValue)
    requires CalledAs(s.Me(), p, r, address, ret)
    ensures Reports(s.Me(), t.P(s.running), r, address, ret)
    ensures forall x :: x != s.running ==> t.P(x) == s.P(x)
    ensures t.time == s.time && t.lastPid == s.lastPid && t.memory == s.memory && t.running == s.running
  {
  }

  /** A resource call: the caller runs on and finds the answer as its result, if there is one, and else -18 as its
      exit value; its registers show the call.  Of the rest of the process part only the pool of PCBPtr blocks
      changes, by the block of a slot. */
  lemma CallReports(s: System, o: Op)
    requires Inv(s) && CanDo(s, o) && o.ResourceOp?
    ensures var t := Do(s, o);
            && Reports(s.ps.Me(), t.ps.P(s.ps.running), o.r, o.address, R.Perform(s.rs, o.r).ret)
            && (forall x :: x != s.ps.running ==> t.ps.P(x) == s.ps.P(x))
            && t.ps.time == s.ps.time && t.ps.lastPid == s.ps.lastPid && t.ps.memory == s.ps.memory
            && PE.Goes(s.ps, t.ps) && PE.SameWaiting(s.ps, t.ps)
            && t.ps.free == s.ps.free && t.ps.zombie == s.ps.zombie
            && t.ps.ptrFree == s.ps.ptrFree - (if GivesSlot(s.rs, o.r) then 1 else 0)
            && t.rs == R.Step(s.rs, o.r)
  {
    var p := AsCall(s, o.r, o.address);
    hide Inv, PI.Inv, RS.Inv, R.Perform, R.CanStep, R.Step, R.TakesSlot, AsCall, P.Step, P.CanStep, P.Entered, Reports,
      PE.Loaded, PE.Answered, GivesSlot, EV.Delivered;
    InvParts(s);
    ResourceKeeps(s, o.r, o.address);
    CallIs(s, o.r, o.address);
    GivesIsTakes(s.rs, o.r);
    PS.CallIs(s.ps, p);
    PE.EnteredLoaded(s.ps, p);
    PE.OtherOutcome(s.ps, p);
    PE.OtherLists(s.ps, p);
    LoadedReports(s.ps, P.Entered(s.ps, p), P.Step(s.ps, p), p, o.r, o.address, R.Perform(s.rs, o.r).ret);
  }

  lemma InvParts(s: System)
    requires Inv(s)
    ensures PI.Inv(s.ps) && RS.Inv(s.rs) && |s.rs.holders| == |s.ps.procs|
  {
  }

  // ---------- the answers as their callers read them ----------

  /** What the caller finds in its result register. */
  function Answer(s: System, o: Op): int
    requires CanDo(s, o) && o.ResourceOp?
  {
    Do(s, o).ps.P(s.ps.running).callResult
  }

  lemma AnswerIs(s: System, o: Op)
    requires Inv(s) && CanDo(s, o) && o.ResourceOp?
    ensures RS.Inv(s.rs) && R.CanStep(s.rs, o.r) && CallOf(o.r, s.ps.running) && Do(s, o).rs == R.Step(s.rs, o.r)
    ensures R.Perform(s.rs, o.r).ret.Value? ==> Answer(s, o) == R.Perform(s.rs, o.r).ret.v
    ensures !R.Perform(s.rs, o.r).ret.Value? ==> Answer(s, o) == s.ps.Me().callResult
  {
    CallReports(s, o);
    hide Inv, Do, R.Perform, R.Step, R.CanStep, GivesSlot, PE.Goes, PE.SameWaiting;
    InvParts(s);
  }

  /** An open answers 0 or more if and only if its caller gains a descriptor, which the answer finds and which names a
      resource with the id. */
  lemma OpenReport(s: System, o: Op)
    requires Inv(s) && RE.Counted(s.rs) && CanDo(s, o) && o.ResourceOp? && o.r.OpenOp?
    ensures var p, t, a := s.ps.running, Do(s, o).rs, Answer(s, o);
            && (a >= 0 <==> exists d :: RE.Gained(s.rs, t, p, d))
            && forall d :: RE.Gained(s.rs, t, p, d) ==> RE.Holds(t, p, d, a) && RE.Named(t, t.D(d).res, o.r.id)
  {
    hide *;
    AnswerIs(s, o);
    OpenCaller(o.r, s.ps.running);
    RE.OpenTakesEffect(s.rs, o.r);
  }

  lemma OpenCaller(r: R.Op, running: int)
    requires CallOf(r, running)
    ensures r.OpenOp? || r.CloseOp? || r.WriteOp? || r.ReadOp? ==> r.p == running
  {
  }

  /** A close answers 0 or more if and only if the caller held such a descriptor, which it then no longer holds;
      otherwise nothing changes. */
  lemma CloseReport(s: System, o: Op)
    requires Inv(s) && CanDo(s, o) && o.ResourceOp? && o.r.CloseOp?
    ensures var p, t, a := s.ps.running, Do(s, o).rs, Answer(s, o);
            && (a >= 0 <==> RE.HasFd(s.rs, p, o.r.fd)) && !RE.HasFd(t, p, o.r.fd)
            && (a < 0 ==> a == -12 && t == s.rs)
  {
    var d := R.ByFd(s.rs, s.rs.H(s.ps.running).descs, o.r.fd);
    hide *;
    AnswerIs(s, o);
    OpenCaller(o.r, s.ps.running);
    CloseHasFd(s.rs, o.r, d);
  }

  lemma CloseHasFd(s: R.State, r: R.Op, d: int)
    requires RS.Inv(s) && R.CanStep(s, r) && r.CloseOp? && d == R.ByFd(s, s.H(r.p).descs, r.fd)
    ensures var t, ret := R.Step(s, r), R.Perform(s, r).ret;
            && ret.Value? && (ret.v >= 0 <==> RE.HasFd(s, r.p, r.fd)) && !RE.HasFd(t, r.p, r.fd)
            && (ret.v < 0 ==> ret.v == -12 && t == s)
  {
    RE.LookupFd(s, r.p, r.fd, d);
    RE.CloseAnswers(s, r, d);
    if d != -1 {
      var u :| RE.Closed(s, u, R.Step(s, r), r, d);
      RE.ClosedFd(s, u, R.Step(s, r), r, d);
    }
    hide R.Step, R.Perform, R.CanStep, RS.Inv, RE.Closed;
  }

  /** A destroy answers 0 or more if and only if there was a resource with the id and none is left; otherwise nothing
      changes. */
  lemma DestroyReport(s: System, o: Op)
    requires Inv(s) && CanDo(s, o) && o.ResourceOp? && o.r.DestroyOp?
    ensures var t, a := Do(s, o).rs, Answer(s, o);
            && (a >= 0 <==> RE.Exists(s.rs, o.r.id) && !RE.Exists(t, o.r.id))
            && (a < 0 ==> t == s.rs)
  {
    var h := R.ById(s.rs, s.rs.listed, o.r.id);
    hide *;
    AnswerIs(s, o);
    RE.DestroyLists(s.rs, o.r, h);
  }

  /** A write of some length through an open fd of a queue with fewer than 128 messages answers that length if it is 0
      to 128, and otherwise -17 without any effect on the queues. */
  lemma WriteReport(s: System, o: Op, d: int)
    requires Inv(s) && CanDo(s, o) && o.ResourceOp? && o.r.WriteOp? && RE.Holds(s.rs, o.r.p, d, o.r.fd)
    requires var q := s.rs.R(s.rs.D(d).res); q.kind == 1 && |q.msgs| < 128
    ensures if 0 <= o.r.length <= 128 then Answer(s, o) == o.r.length
            else Answer(s, o) == -17 && Do(s, o).rs == s.rs
  {
    var q := s.rs.D(d).res;
    hide *;
    AnswerIs(s, o);
    RE.HeldTarget(s.rs, o.r.p, d, o.r.fd);
    RE.WriteAnswers(s.rs, o.r, d, q);
  }

  /** From the start of the system, over every run: an open answers 0 or more if and only if its caller gains a
      descriptor, which the answer finds and which names a resource with the id. */
  lemma OpenFromStart(processes: nat, standard: nat, queues: nat, descriptors: nat, messages: nat, ops: seq<Op>, o: Op)
    requires processes > 0 && ValidRun(Boot(processes, standard, queues, descriptors, messages), ops)
    requires CanDo(After(Boot(processes, standard, queues, descriptors, messages), ops), o)
    requires o.ResourceOp? && o.r.OpenOp?
    ensures var s := After(Boot(processes, standard, queues, descriptors, messages), ops);
            var p, t, a := s.ps.running, Do(s, o).rs, Answer(s, o);
            && (a >= 0 <==> exists d :: RE.Gained(s.rs, t, p, d))
            && forall d :: RE.Gained(s.rs, t, p, d) ==> RE.Holds(t, p, d, a) && RE.Named(t, t.D(d).res, o.r.id)
  {
    hide *;
    var b := Boot(processes, standard, queues, descriptors, messages);
    BootInv(processes, standard, queues, descriptors, messages);
    BootParts(processes, standard, queues, descriptors, messages);
    RE.BootCounted(standard, queues, descriptors, processes, messages);
    RunSplits(b, ops);
    SplitRuns(b, ops);
    InvParts(b);
    RE.RunCounted(b.rs, AllMoves(b, ops));
    OpenReport(After(b, ops), o);
  }

  lemma BootParts(processes: nat, standard: nat, queues: nat, descriptors: nat, messages: nat)
    requires processes > 0
    ensures Boot(processes, standard, queues, descriptors, messages).rs
            == RS.Boot(standard, queues, descriptors, processes, messages)
  {
  }

  lemma SplitRuns(s: System, ops: seq<Op>)
    requires ValidRun(s, ops) && RunsSplit(s, ops)
    ensures R.ValidRun(s.rs, AllMoves(s, ops)) && R.After(s.rs, AllMoves(s, ops)) == After(s, ops).rs
  {
  }

  // ---------- process calls ----------

  ghost predicate Renewed(s: R.State, t: R.State, b: int) {
    t == s.(holders := t.holders) && t.H(b) == R.Holder(0, []) && forall q :: q != b ==> t.H(q) == s.H(q)
  }

  /** An exit that is reported at once releases every descriptor of its caller, a spawn forgets those of its block, and
      no other process call touches the resources. */
  lemma ProcessResources(s: System, p: P.Op)
    requires Inv(s) && CanDo(s, ProcessOp(p))
    ensures Do(s, ProcessOp(p)).ps == P.Step(s.ps, p)
    ensures var t := Do(s, ProcessOp(p)).rs;
            if p.ExitCall? && EV.Delivered(s.ps, p) != [] then RE.Released(s.rs, t, s.ps.running)
            else if p.SpawnCall? then s.ps.free != [] && Renewed(s.rs, t, s.ps.free[0])
            else t == s.rs
  {
    InvParts(s);
    Blocks(s, p);
    if p.ExitCall? { PE.ExitReports(s.ps, p.value); }
    RE.ReleaseReleases(s.rs, s.ps.running);
    if p.SpawnCall? { ResetRenews(s.rs, s.ps.free[0]); }
    hide Inv, PI.Inv, RS.Inv, P.Step, P.CanStep, P.Entered, P.Die, P.Adopt, P.ParentWaits, R.Release, R.Reset,
      RE.Released, Renewed, EV.Delivered, Gone;
  }

  lemma ResetRenews(s: R.State, b: int)
    requires 0 <= b < |s.holders|
    ensures Renewed(s, R.Reset(s, b), b)
  {
  }

  // ---------- which calls are possible ----------

  /** A resource call is possible in the whole system when it is in the resource part and a PCBPtr block is left for the
      slot that it takes, if it takes one. */
  lemma SystemPossible(s: System, o: Op)
    requires Inv(s) && o.ResourceOp? && CallOf(o.r, s.ps.running)
    ensures CanDo(s, o) <==>
              s.ps.running != -1 && R.CanStep(s.rs, o.r) && (GivesSlot(s.rs, o.r) ==> s.ps.ptrFree > 0)
  {
    InvParts(s);
    GivesIsTakes(s.rs, o.r);
    hide Inv, RS.Inv, PI.Inv, R.CanStep, R.TakesSlot, GivesSlot;
  }

  // ---------- the start ----------

  /** The first process, with pid 0, runs in block 0 at time 0; every other block is free in order and nobody waits, has
      died or has children. */
  lemma FirstProcess(n: nat)
    requires n > 0
    ensures var s := P.Boot(n);
            && s.time == 0 && s.lastPid == 1 && s.init == s.running == 0 && |s.procs| == s.ptrFree == n
            && s.ready == s.waiting == s.zombie == [] && s.timers == [] && s.memory == map[]
            && |s.free| == n - 1 && (forall i :: 0 <= i < n - 1 ==> s.free[i] == i + 1)
            && s.Me().pid == 0 && s.Me().status == P.Running && s.Me().parent == -1
            && (forall b :: s.P(b).children == [] && s.P(b).timer == -1 && s.P(b).returnValue == 0)
  {
  }

  /** All blocks of the resource part are free in order; queues follow the standard resources. */
  lemma FirstResources(standard: nat, queues: nat, descriptors: nat, processes: nat, messages: nat)
    ensures var s := RS.Boot(standard, queues, descriptors, processes, messages);
            && s.listed == s.lost == [] && |s.res| == standard + queues
            && s.freeStd == seq(standard, i => i) && s.freeMq == seq(queues, i => standard + i)
            && s.freeDescs == s.freePtrs == seq(descriptors, i => i) && s.freeMsgs == seq(messages, i => i)
            && |s.holders| == processes && (forall p :: s.H(p) == R.Holder(0, []))
            && (forall h :: s.R(h).ptrs == s.R(h).msgs == [] && s.R(h).reader == s.R(h).writer == -1)
            && (forall b :: !s.M(b).stale)
  {
  }
}
