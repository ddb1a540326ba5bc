/** What the writers of a message queue are told, against what the queue delivers.  A write answers through
    the result register of its caller, and leaves the register alone when the queue is full. */
module Reports {
  import P = ProcessModel
  import PI = ProcessInvariant
  import R = ResourceModel
  import RS = ResourceSteps
  import D = Delivery
  import X = Exclusivity
  import opened WholeSystem
  import opened Projection

  type Text = D.Text

  // ---------- one call ----------

  /** A write to queue h. */
  predicate WritesTo(s: System, o: Op, h: int) {
    o.ResourceOp? && o.r.WriteOp? && R.QueueOf(s.rs, o.r.p, o.r.fd) == h && h >= 0
  }

  /** What the caller of a resource call finds in its result register. */
  function Result(s: System, o: Op): int
    requires CanDo(s, o) && o.ResourceOp?
  {
    Do(s, o).ps.P(s.ps.running).callResult
  }

  function Message(r: R.Op): Text
    requires r.WriteOp?
  {
    if 0 <= r.length <= |r.buffer| then r.buffer[..r.length] else r.buffer
  }

  /** The message of a write whose caller reads that it succeeded. */
  function Told(s: System, o: Op, h: int): seq<Text>
    requires CanDo(s, o)
  {
    if WritesTo(s, o, h) && Result(s, o) >= 0 then [Message(o.r)] else []
  }

  /** The queue is full, and the result of the caller's previous call reads as a success. */
  predicate Brushed(s: System, o: Op, h: int) {
    && WritesTo(s, o, h) && R.ValidLength(o.r.length) && |s.rs.R(h).msgs| == R.M_FOR_MQ
    && s.ps.Me().callResult >= 0
  }

  /** The pool hands out a block with links left over. */
  predicate Refused(s: System, o: Op, h: int)
    requires CanDo(s, o)
  {
    o.ResourceOp? && D.Refused(s.rs, o.r, h)
  }

  /** The message that the call puts into queue h. */
  function Took(s: System, o: Op, h: int): seq<Text>
    requires CanDo(s, o)
  {
    if o.ResourceOp? then D.Accepted(s.rs, o.r, h) else []
  }

  lemma CallResult(s: P.State, p: P.Op)
    requires p.OtherCall? && P.CanStep(s, p) && 0 <= s.running < |s.procs|
    ensures P.Step(s, p).P(s.running).callResult == p.result
  {
  }

  lemma CallIs(s: System, r: R.Op, address: int)
    requires R.CanStep(s.rs, r)
    ensures var p, ret := AsCall(s, r, address), R.Perform(s.rs, r).ret;
            p.OtherCall? && p.result == if ret.Value? then ret.v else s.ps.Me().callResult
  {
    hide R.Perform, R.CanStep, R.TakesSlot;
  }

  lemma ResultIs(s: System, o: Op)
    requires Inv(s) && CanDo(s, o) && o.ResourceOp? && 0 <= s.ps.running < |s.ps.procs|
    ensures var ret := R.Perform(s.rs, o.r).ret;
            Result(s, o) == if ret.Value? then ret.v else s.ps.Me().callResult
  {
    hide Inv, R.Perform, R.CanStep, R.Step, AsCall, P.Step, P.CanStep;
    ResourceKeeps(s, o.r, o.address);
    CallIs(s, o.r, o.address);
    CallResult(s.ps, AsCall(s, o.r, o.address));
  }

  lemma RunnerInRange(s: System)
    requires Inv(s) && s.ps.running != P.NULL
    ensures 0 <= s.ps.running < |s.ps.procs|
  {
    PI.Placed(s.ps);
    assert PI.InOnePlace(s.ps, s.ps.running);
  }

  lemma WriteReturns(s: R.State, r: R.Op, h: int)
    requires r.WriteOp? && R.CanStep(s, r) && R.QueueOf(s, r.p, r.fd) == h && h >= 0
    ensures var ret := R.Perform(s, r).ret;
            && (ret.Unchanged? <==> R.ValidLength(r.length) && |s.R(h).msgs| == R.M_FOR_MQ)
            && (ret.Value? && ret.v >= 0 <==> R.ValidLength(r.length) && |s.R(h).msgs| != R.M_FOR_MQ)
            && (ret.Value? && ret.v >= 0 ==> D.Written(s, r, h) == [Message(r)])
            && (ret.Unchanged? ==> D.Written(s, r, h) == [] && R.Step(s, r) == s)
  {
    hide R.QueueOf, R.Put;
  }

  /** The caller is told of exactly the message that the queue takes, unless the block is refused or the queue
      is full under an earlier success: then it is told of a message that nobody will read. */
  lemma StepTold(s: System, o: Op, h: int)
    requires Inv(s) && CanDo(s, o)
    ensures !Refused(s, o, h) && !Brushed(s, o, h) ==> Told(s, o, h) == Took(s, o, h)
    ensures Refused(s, o, h) || Brushed(s, o, h) ==> |Told(s, o, h)| == 1 && Took(s, o, h) == []
  {
    if o.ResourceOp? {
      RunnerInRange(s);
      ResultIs(s, o);
      if WritesTo(s, o, h) {
        WriteReturns(s.rs, o.r, h);
      }
      hide Inv, R.Perform, R.CanStep, R.QueueOf, Result, Message, Do;
    }
  }

  // ---------- runs ----------

  /** The message that a read hands over. */
  function Got(s: System, o: Op, h: int): seq<Text>
    requires CanDo(s, o)
  {
    if o.ResourceOp? then D.Received(s.rs, o.r, h) else []
  }

  lemma StepFifo(s: System, o: Op, h: int)
    requires Inv(s) && CanDo(s, o) && h in s.rs.listed && h in Do(s, o).rs.listed
    ensures Got(s, o, h) + D.Texts(Do(s, o).rs, h) == D.Texts(s.rs, h) + Took(s, o, h)
  {
    hide Inv, CanDo, Do, Moves, RS.Inv, D.Texts, R.Step, R.CanStep, D.Accepted, D.Received;
    MoveIs(s, o);
    var m := Moves(s, o);
    if m != [] {
      D.StepFifo(s.rs, m[0], h);
      if o.ProcessOp? { NoTraffic(s.rs, m[0], h); }
    }
  }

  /** The release of descriptors at an exit and the start of a new process move no message. */
  lemma NoTraffic(s: R.State, r: R.Op, h: int)
    requires R.CanStep(s, r) && (r.ReleaseOp? || r.ResetOp?)
    ensures D.Received(s, r, h) == [] && D.Accepted(s, r, h) == []
  {
  }

  predicate Lives(s: System, ops: seq<Op>, h: int)
    requires ValidRun(s, ops)
    decreases ops
  {
    h in s.rs.listed && (ops == [] || Lives(Do(s, ops[0]), ops[1..], h))
  }

  function AllTold(s: System, ops: seq<Op>, h: int): seq<Text>
    requires ValidRun(s, ops)
    decreases ops
  {
    if ops == [] then [] else Told(s, ops[0], h) + AllTold(Do(s, ops[0]), ops[1..], h)
  }

  function AllTook(s: System, ops: seq<Op>, h: int): seq<Text>
    requires ValidRun(s, ops)
    decreases ops
  {
    if ops == [] then [] else Took(s, ops[0], h) + AllTook(Do(s, ops[0]), ops[1..], h)
  }

  function AllGot(s: System, ops: seq<Op>, h: int): seq<Text>
    requires ValidRun(s, ops)
    decreases ops
  {
    if ops == [] then [] else Got(s, ops[0], h) + AllGot(Do(s, ops[0]), ops[1..], h)
  }

  lemma {:induction false} RunFifo(s: System, ops: seq<Op>, h: int)
    requires Inv(s) && ValidRun(s, ops) && Lives(s, ops, h)
    ensures AllGot(s, ops, h) + D.Texts(After(s, ops).rs, h) == D.Texts(s.rs, h) + AllTook(s, ops, h)
    decreases ops
  {
    if ops != [] {
      hide Inv, CanDo, Do, D.Texts, Got, Took;
      var o, t, rest := ops[0], Do(s, ops[0]), ops[1..];
      assert h in t.rs.listed;
      StepFifo(s, o, h);
      StepKeepsInv(s, o);
      RunFifo(t, rest, h);
      var g, u := AllGot(t, rest, h), D.Texts(After(t, rest).rs, h);
      D.Chain(Got(s, o, h), D.Texts(t.rs, h), D.Texts(s.rs, h), Took(s, o, h), g, u, AllTook(t, rest, h));
    }
  }

  /** Some write to queue h meets a refused block. */
  predicate SomeRefused(s: System, ops: seq<Op>, h: int)
    requires ValidRun(s, ops)
    decreases ops
  {
    ops != [] && (Refused(s, ops[0], h) || SomeRefused(Do(s, ops[0]), ops[1..], h))
  }

  /** Some write finds queue h full while the register of its caller reads as a success. */
  predicate SomeBrushed(s: System, ops: seq<Op>, h: int)
    requires ValidRun(s, ops)
    decreases ops
  {
    ops != [] && (Brushed(s, ops[0], h) || SomeBrushed(Do(s, ops[0]), ops[1..], h))
  }

  lemma {:induction false} ToldIsTook(s: System, ops: seq<Op>, h: int)
    requires Inv(s) && ValidRun(s, ops)
    ensures !SomeRefused(s, ops, h) && !SomeBrushed(s, ops, h) ==> AllTold(s, ops, h) == AllTook(s, ops, h)
    ensures |AllTook(s, ops, h)| <= |AllTold(s, ops, h)|
    ensures SomeRefused(s, ops, h) || SomeBrushed(s, ops, h) ==> |AllTook(s, ops, h)| < |AllTold(s, ops, h)|
    decreases ops
  {
    if ops != [] {
      hide Inv, CanDo, Do, Told, Took, Brushed, Refused;
      StepTold(s, ops[0], h);
      StepKeepsInv(s, ops[0]);
      ToldIsTook(Do(s, ops[0]), ops[1..], h);
    }
  }

  /** Over any run: the messages read followed by those queued are those queued at first followed by those
      that writers were told had been sent, if and only if no write met a block with links left over and no
      write found the queue full while the register of its caller held a result that reads as a success. */
  lemma TruthfulIff(s: System, ops: seq<Op>, h: int)
    requires Inv(s) && ValidRun(s, ops) && Lives(s, ops, h)
    ensures AllGot(s, ops, h) + D.Texts(After(s, ops).rs, h) == D.Texts(s.rs, h) + AllTold(s, ops, h)
            <==> !SomeRefused(s, ops, h) && !SomeBrushed(s, ops, h)
  {
    RunFifo(s, ops, h);
    ToldIsTook(s, ops, h);
    var q, a, b := D.Texts(s.rs, h), AllTook(s, ops, h), AllTold(s, ops, h);
    hide *;
    assert |q + a| == |q| + |a| && |q + b| == |q| + |b|;
  }

  // ---------- runs without a rough destruction ----------

  predicate Rough(s: System, o: Op) {
    o.ResourceOp? && D.Rough(s.rs, o.r)
  }

  /** No queue is destroyed with two messages or more in it. */
  predicate Gentle(s: System, ops: seq<Op>)
    requires ValidRun(s, ops)
    decreases ops
  {
    ops == [] || (!Rough(s, ops[0]) && Gentle(Do(s, ops[0]), ops[1..]))
  }

  lemma StepClean(s: System, o: Op)
    requires Inv(s) && CanDo(s, o) && D.Clean(s.rs)
    ensures D.Clean(Do(s, o).rs) <==> !Rough(s, o)
  {
    hide Inv, CanDo, Do, Moves, RS.Inv, R.Step, R.CanStep, D.Clean, D.Rough;
    MoveIs(s, o);
    var m := Moves(s, o);
    if m != [] {
      D.StepClean(s.rs, m[0]);
      if o.ProcessOp? { NotRough(s.rs, m[0]); }
    }
  }

  lemma NotRough(s: R.State, r: R.Op)
    requires r.ReleaseOp? || r.ResetOp?
    ensures !D.Rough(s, r)
  {
  }

  lemma {:induction false} GentleRun(s: System, ops: seq<Op>, h: int)
    requires Inv(s) && D.Clean(s.rs) && ValidRun(s, ops) && Gentle(s, ops)
    ensures Inv(After(s, ops)) && D.Clean(After(s, ops).rs) && !SomeRefused(s, ops, h)
    decreases ops
  {
    if ops != [] {
      if ops[0].ResourceOp? { D.CleanAccepts(s.rs, ops[0].r, h); }
      hide Inv, CanDo, Do, Rough, D.Clean, D.Refused;
      StepClean(s, ops[0]);
      StepKeepsInv(s, ops[0]);
      GentleRun(Do(s, ops[0]), ops[1..], h);
    }
  }

  /** Over runs in which no queue is destroyed with two messages or more in it, the writes to the full queue
      under an earlier success are the only lies. */
  lemma LosslessIff(s: System, ops: seq<Op>, h: int)
    requires Inv(s) && D.Clean(s.rs) && ValidRun(s, ops) && Gentle(s, ops) && Lives(s, ops, h)
    ensures AllGot(s, ops, h) + D.Texts(After(s, ops).rs, h) == D.Texts(s.rs, h) + AllTold(s, ops, h)
            <==> !SomeBrushed(s, ops, h)
  {
    hide *;
    GentleRun(s, ops, h);
    TruthfulIff(s, ops, h);
  }

  // ---------- from the start ----------

  /** The creation of message queue h. */
  predicate Creates(s: System, o: Op, h: int) {
    && o.ResourceOp? && o.r.OpenOp? && o.r.kind == R.MESSAGE_QUEUE_TYPE && o.r.mode == R.DSOS_CREATE
    && R.ById(s.rs, s.rs.listed, o.r.id) == R.NULL && s.rs.freeMq != [] && h == s.rs.freeMq[0]
  }

  lemma CreatedIsEmpty(s: System, o: Op, h: int)
    requires Inv(s) && CanDo(s, o) && Creates(s, o, h)
    ensures D.Texts(Do(s, o).rs, h) == [] && h in Do(s, o).rs.listed
  {
    hide PI.Inv, RS.Inv, D.Texts, R.Open, R.CanOpen, P.Step, AsCall;
    D.CreatedIsEmpty(s.rs, o.r.p, o.r.id);
  }

  lemma CreationIsGentle(s: System, o: Op, h: int)
    requires Creates(s, o, h)
    ensures !Rough(s, o)
  {
  }

  /** A run from s in which `create` creates queue h and `ops` are the calls since, without a rough
      destruction and with the queue in existence throughout. */
  predicate History(s: System, before: seq<Op>, create: Op, ops: seq<Op>, h: int) {
    && ValidRun(s, before) && Gentle(s, before)
    && var u := After(s, before);
    && CanDo(u, create) && Creates(u, create, h)
    && ValidRun(Do(u, create), ops) && Gentle(Do(u, create), ops) && Lives(Do(u, create), ops, h)
  }

  /** The state in which the queue is new. */
  function Created(s: System, before: seq<Op>, create: Op, ops: seq<Op>, h: int): System
    requires History(s, before, create, ops, h)
  {
    Do(After(s, before), create)
  }

  lemma CreatedClean(s: System, before: seq<Op>, create: Op, ops: seq<Op>, h: int)
    requires Inv(s) && D.Clean(s.rs) && History(s, before, create, ops, h)
    ensures var t := Created(s, before, create, ops, h);
            && Inv(t) && D.Clean(t.rs) && D.Texts(t.rs, h) == []
            && ValidRun(t, ops) && Gentle(t, ops) && Lives(t, ops, h)
  {
    hide Inv, D.Clean, D.Texts, CanDo, Do, Rough, Creates, After, ValidRun, Gentle, Lives;
    var u := After(s, before);
    GentleRun(s, before, h);
    CreationIsGentle(u, create, h);
    StepClean(u, create);
    StepKeepsInv(u, create);
    CreatedIsEmpty(u, create, h);
  }

  lemma BootClean(processes: nat, standard: nat, queues: nat, descriptors: nat, messages: nat)
    requires processes > 0
    ensures Inv(Boot(processes, standard, queues, descriptors, messages))
    ensures D.Clean(Boot(processes, standard, queues, descriptors, messages).rs)
  {
    BootInv(processes, standard, queues, descriptors, messages);
    D.BootClean(standard, queues, descriptors, processes, messages);
    hide Inv, D.Clean, RS.Boot, P.Boot;
  }

  /** From the start, and since the queue was created: what was read followed by what is queued is what the
      writers were told had been sent, if and only if no write found the queue full under an earlier success. */
  lemma SinceCreation(processes: nat, standard: nat, queues: nat, descriptors: nat, messages: nat,
                      before: seq<Op>, create: Op, ops: seq<Op>, h: int)
    requires processes > 0
    requires History(Boot(processes, standard, queues, descriptors, messages), before, create, ops, h)
    ensures var t := Created(Boot(processes, standard, queues, descriptors, messages), before, create, ops, h);
            AllGot(t, ops, h) + D.Texts(After(t, ops).rs, h) == AllTold(t, ops, h) <==> !SomeBrushed(t, ops, h)
  {
    hide *;
    var s := Boot(processes, standard, queues, descriptors, messages);
    BootClean(processes, standard, queues, descriptors, messages);
    CreatedClean(s, before, create, ops, h);
    var t := Created(s, before, create, ops, h);
    LosslessIff(t, ops, h);
    assert [] + AllTold(t, ops, h) == AllTold(t, ops, h);
  }

  /** A read that tells its caller that queue h is empty. */
  predicate ReportsEmpty(s: System, o: Op, h: int) {
    o.ResourceOp? && D.ReportsEmpty(s.rs, o.r, h)
  }

  lemma ReportedEmpty(s: System, o: Op, h: int)
    requires ReportsEmpty(s, o, h)
    ensures s.rs.R(h).msgs == []
  {
    D.ReportedEmpty(s.rs, o.r, h);
  }

  /** In such runs a read that reports an empty queue means that everything that writers were told had been
      sent has been read, if and only if no write found the queue full under an earlier success. */
  lemma EmptyMeansAllRead(processes: nat, standard: nat, queues: nat, descriptors: nat, messages: nat,
                          before: seq<Op>, create: Op, ops: seq<Op>, h: int, read: Op)
    requires processes > 0
    requires History(Boot(processes, standard, queues, descriptors, messages), before, create, ops, h)
    requires var t := Created(Boot(processes, standard, queues, descriptors, messages), before, create, ops, h);
             ReportsEmpty(After(t, ops), read, h)
    ensures var t := Created(Boot(processes, standard, queues, descriptors, messages), before, create, ops, h);
            AllGot(t, ops, h) == AllTold(t, ops, h) <==> !SomeBrushed(t, ops, h)
  {
    hide *;
    var s := Boot(processes, standard, queues, descriptors, messages);
    var t := Created(s, before, create, ops, h);
    BootClean(processes, standard, queues, descriptors, messages);
    CreatedClean(s, before, create, ops, h);
    SinceCreation(processes, standard, queues, descriptors, messages, before, create, ops, h);
    ReportedEmpty(After(t, ops), read, h);
    D.NoTexts(After(t, ops).rs, h);
    assert AllGot(t, ops, h) + [] == AllGot(t, ops, h);
  }

  // ---------- other properties of the resource layer, over runs of the system ----------

  /** From the start, while every call of the resource layer meets its slot condition, the slots of message
      queues agree with the open descriptors. */
  lemma SlotsInRuns(processes: nat, standard: nat, queues: nat, descriptors: nat, messages: nat, ops: seq<Op>)
    requires processes > 0 && ValidRun(Boot(processes, standard, queues, descriptors, messages), ops)
    ensures var s := Boot(processes, standard, queues, descriptors, messages);
            R.ValidRun(s.rs, AllMoves(s, ops))
            && (X.SlotSafeRun(s.rs, AllMoves(s, ops)) ==> X.Exclusive(After(s, ops).rs))
  {
    var s := Boot(processes, standard, queues, descriptors, messages);
    BootInv(processes, standard, queues, descriptors, messages);
    X.BootExclusive(standard, queues, descriptors, processes, messages);
    assert s.rs == RS.Boot(standard, queues, descriptors, processes, messages);
    hide PI.Inv, RS.Inv, X.Exclusive, X.SlotSafeRun, Boot, RS.Boot, After, R.After, R.ValidRun, P.After, P.ValidRun,
      ValidRun, AllMoves, Calls;
    RunSplits(s, ops);
    if X.SlotSafeRun(s.rs, AllMoves(s, ops)) {
      X.RunExclusive(s.rs, AllMoves(s, ops));
    }
  }
}
