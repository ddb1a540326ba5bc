/** What a message queue delivers: order, completeness with respect to the writes that return the length of
    their message, and when such a message is lost. */
module Delivery {
  import opened Sequences
  import opened ResourceModel
  import opened Messages
  import opened Descriptors
  import opened ResourceSteps

  type Text = seq<char>

  /** The messages in queue h, first to be read first. */
  function Texts(s: State, h: int): (r: seq<Text>)
    ensures |r| == |s.R(h).msgs|
  {
    var blocks := s.R(h).msgs;
    seq(|blocks|, i requires 0 <= i < |blocks| => s.M(blocks[i]).text)
  }

  // ---------- what the callers see ----------

  predicate Succeeds(s: State, op: Op)
    requires CanStep(s, op)
  {
    var ret := Perform(s, op).ret;
    ret.Value? && ret.v >= 0
  }

  /** The message of a write into queue h that puts its length in the result register.  A write to a full
      queue puts nothing there; what its caller then reads is the subject of Reports. */
  function Written(s: State, op: Op, h: int): seq<Text>
    requires CanStep(s, op)
  {
    if op.WriteOp? && QueueOf(s, op.p, op.fd) == h && h >= 0 && Succeeds(s, op) then [op.buffer[..op.length]] else []
  }

  /** The message that a read from queue h hands over. */
  function Received(s: State, op: Op, h: int): seq<Text>
    requires CanStep(s, op)
  {
    if op.ReadOp? && QueueOf(s, op.p, op.fd) == h && h >= 0 && Succeeds(s, op) then [Perform(s, op).data] else []
  }

  /** The pool hands out a block whose links are not null, and List_insert refuses it. */
  predicate Refused(s: State, op: Op, h: int)
    requires CanStep(s, op)
  {
    Written(s, op, h) != [] && s.M(s.freeMsgs[0]).stale
  }

  function Accepted(s: State, op: Op, h: int): seq<Text>
    requires CanStep(s, op)
  {
    if Refused(s, op, h) then [] else Written(s, op, h)
  }

  // ---------- one step ----------

  lemma NewResourceQuiet(s: State, id: int, kind: int)
    requires DescInv(s) && FreeOf(s, kind) != []
    ensures SameMessages(s, NewResource(s, id, kind))
  {
    var f := FreeOf(s, kind)[0];
    assert HandlesOk(s) && f in FreeOf(s, kind);
    assert f !in s.listed;
    UnlistedIsEmpty(s, f);
    hide DescInv, HandlesOk;
    NewResourceMessages(s, id, kind);
  }

  lemma SameMessagesTwice(s: State, t: State, u: State)
    requires SameMessages(s, t) && SameMessages(t, u)
    ensures SameMessages(s, u)
  {
  }

  lemma OpenSameMessages(s: State, p: int, id: int, kind: int, mode: int)
    requires DescInv(s) && CanOpen(s, id, kind, mode)
    ensures SameMessages(s, Open(s, p, id, kind, mode).s)
  {
    hide DescInv, SameMessages, NewResource, Finish, TakeSlot, ById;
    assert SameMessages(s, s) by { SelfSame(s); }
    var h := ById(s, s.listed, id);
    if mode == DSOS_CREATE {
      if h == NULL {
        var f, t := FreeOf(s, kind)[0], NewResource(s, id, kind);
        NewResourceQuiet(s, id, kind);
        SamePools(s, id, kind);
        FinishSameMessages(t, p, f, mode);
        SameMessagesTwice(s, t, Finish(t, p, f, mode).s);
      }
    } else if h != NULL {
      FinishSameMessages(s, p, h, mode);
      var t := TakeSlot(s, h, mode, p);
      TakeSlotQuiet(s, h, mode, p);
      FinishSameMessages(t, p, h, mode);
      SameMessagesTwice(s, t, Finish(t, p, h, mode).s);
    }
  }

  lemma SelfSame(s: State)
    ensures SameMessages(s, s)
  {
  }

  lemma SamePools(s: State, id: int, kind: int)
    requires FreeOf(s, kind) != []
    ensures NewResource(s, id, kind).freeDescs == s.freeDescs && NewResource(s, id, kind).freePtrs == s.freePtrs
  {
  }

  lemma TakeSlotQuiet(s: State, h: int, mode: int, p: int)
    ensures SameMessages(s, TakeSlot(s, h, mode, p))
    ensures TakeSlot(s, h, mode, p).freeDescs == s.freeDescs && TakeSlot(s, h, mode, p).freePtrs == s.freePtrs
  {
  }

  lemma FinishSameMessages(s: State, p: int, h: int, mode: int)
    requires s.freeDescs != [] ==> s.freePtrs != []
    ensures SameMessages(s, Finish(s, p, h, mode).s)
  {
    hide Link;
    if s.freeDescs != [] { LinkSameMessages(s, p, h, mode); }
  }

  lemma {:induction false} ReleaseSameMessages(s: State, p: int)
    ensures SameMessages(s, Release(s, p))
    decreases |s.H(p).descs|
  {
    hide Unlink;
    if s.H(p).descs != [] && 0 <= p < |s.holders| {
      var d := s.H(p).descs[0];
      UnlinkSameMessages(s, p, d);
      UnlinkedSizes(s, p, d);
      ReleaseSameMessages(Unlink(s, p, d), p);
    }
  }

  /** Calls that are neither reads nor writes nor a destruction move no message. */
  lemma QuietSteps(s: State, op: Op)
    requires Inv(s) && CanStep(s, op) && (op.OpenOp? || op.CloseOp? || op.ReleaseOp? || op.ResetOp?)
    ensures SameMessages(s, Step(s, op))
  {
    assert DescInv(s);
    match op
    case OpenOp(p, id, kind, mode) =>
      hide Inv, DescInv, Open, SameMessages;
      OpenSameMessages(s, p, id, kind, mode);
    case CloseOp(p, fd, mode) =>
      hide Inv, DescInv, SameMessages;
      CloseSameMessages(s, p, fd, mode);
    case ReleaseOp(p) =>
      hide Inv, DescInv, Release, SameMessages;
      ReleaseSameMessages(s, p);
    case ResetOp(p) =>
      hide Inv, DescInv;
  }

  lemma CloseSameMessages(s: State, p: int, fd: int, mode: int)
    ensures SameMessages(s, Close(s, p, fd, mode).s)
  {
    hide Unlink, SameMessages, ByFd;
    SelfSame(s);
    var d := ByFd(s, s.H(p).descs, fd);
    var h := s.D(d).res;
    var t := s.SetR(h, ClearSlot(s.R(h), mode));
    ClearSlotQuiet(s, h, mode);
    UnlinkSameMessages(s, p, d);
    UnlinkSameMessages(t, p, d);
    SameMessagesTwice(s, t, Unlink(t, p, d));
  }

  lemma ClearSlotQuiet(s: State, h: int, mode: int)
    ensures SameMessages(s, s.SetR(h, ClearSlot(s.R(h), mode)))
  {
  }

  /** Queue h and its messages are as they were. */
  ghost predicate SameQueue(s: State, t: State, h: int) {
    t.R(h).msgs == s.R(h).msgs && forall b :: b in s.R(h).msgs ==> t.M(b).text == s.M(b).text
  }

  lemma SameTexts(s: State, t: State, h: int)
    requires SameQueue(s, t, h)
    ensures Texts(t, h) == Texts(s, h)
  {
  }

  /** The head of the pool is in no queue and only once in the pool. */
  lemma HeadIsFree(s: State)
    requires MsgInv(s) && s.freeMsgs != []
    ensures var b := s.freeMsgs[0]; 0 <= b < |s.msgs| && b in s.freeMsgs && b !in s.freeMsgs[1..]
    ensures forall h {:trigger s.R(h)} :: s.freeMsgs[0] !in s.R(h).msgs
  {
    var b := s.freeMsgs[0];
    assert b in s.freeMsgs;
    forall h ensures b !in s.R(h).msgs {
      assert b in s.R(h).msgs ==> Queued(s, b);
    }
  }

  lemma WriteEffect(s: State, op: Op, q: int)
    requires Inv(s) && CanStep(s, op) && op.WriteOp? && q == QueueOf(s, op.p, op.fd)
    ensures if Written(s, op, q) == [] then Step(s, op) == s
            else
              && s.freeMsgs != [] && Written(s, op, q) == [op.buffer[..op.length]]
              && if s.M(s.freeMsgs[0]).stale then Lost(s, Step(s, op), s.freeMsgs[0], op.buffer[..op.length])
                 else Enqueued(s, Step(s, op), q, s.freeMsgs[0], op.buffer[..op.length])
  {
    if Written(s, op, q) != [] {
      QueueListed(s, op.p, op.fd);
      hide Inv, Put, Lost, Enqueued, QueueOf;
      PutKeeps(s, q, op.buffer[..op.length]);
    }
  }

  lemma LostTexts(s: State, t: State, h: int, b: int, text: Text)
    requires Lost(s, t, b, text) && b !in s.R(h).msgs
    ensures Texts(t, h) == Texts(s, h)
  {
    assert SameQueue(s, t, h);
    SameTexts(s, t, h);
  }

  lemma OtherTexts(s: State, t: State, q: int, h: int, b: int, text: Text)
    requires Enqueued(s, t, q, b, text) && b !in s.R(h).msgs && h != q
    ensures Texts(t, h) == Texts(s, h)
  {
    assert SameQueue(s, t, h);
    SameTexts(s, t, h);
  }

  lemma WriteDelivers(s: State, op: Op, h: int)
    requires Inv(s) && CanStep(s, op) && op.WriteOp?
    ensures Texts(Step(s, op), h) == Texts(s, h) + Accepted(s, op, h)
  {
    var q := QueueOf(s, op.p, op.fd);
    WriteEffect(s, op, q);
    if Written(s, op, q) != [] {
      var t, text, b := Step(s, op), op.buffer[..op.length], s.freeMsgs[0];
      HeadIsFree(s);
      hide Inv, Step, Perform, Lost, Enqueued, QueueOf, Texts;
      if s.M(b).stale {
        LostTexts(s, t, h, b, text);
      } else if h != q {
        OtherTexts(s, t, q, h, b, text);
      } else {
        EnqueuedTexts(s, t, h, b, text);
      }
    }
  }

  lemma EnqueuedTexts(s: State, t: State, h: int, b: int, text: Text)
    requires Enqueued(s, t, h, b, text) && b !in s.R(h).msgs && 0 <= b < |s.msgs|
    ensures Texts(t, h) == Texts(s, h) + [text]
  {
    var msgs := s.R(h).msgs;
    assert forall i :: 0 <= i < |msgs| ==> msgs[i] in msgs && t.R(h).msgs[i] == msgs[i];
  }

  lemma ReadEffect(s: State, op: Op, q: int)
    requires Inv(s) && CanStep(s, op) && op.ReadOp? && q == QueueOf(s, op.p, op.fd)
    ensures if Received(s, op, q) == [] then Step(s, op) == s
            else
              && s.R(q).msgs != [] && Received(s, op, q) == [s.M(s.R(q).msgs[0]).text]
              && Dequeued(s, Step(s, op), q, s.R(q).msgs[0], false)
  {
    if Received(s, op, q) != [] {
      QueueListed(s, op.p, op.fd);
      hide Inv, Drop, Dequeued, QueueOf;
      DropKeeps(s, q);
    }
  }

  lemma UnreadTexts(s: State, t: State, q: int, h: int, b: int)
    requires Dequeued(s, t, q, b, false) && h != q
    ensures Texts(t, h) == Texts(s, h)
  {
    assert SameQueue(s, t, h);
    SameTexts(s, t, h);
  }

  lemma ReadDelivers(s: State, op: Op, h: int)
    requires Inv(s) && CanStep(s, op) && op.ReadOp?
    ensures Received(s, op, h) + Texts(Step(s, op), h) == Texts(s, h)
  {
    var q := QueueOf(s, op.p, op.fd);
    ReadEffect(s, op, q);
    if Received(s, op, q) != [] {
      var t, b := Step(s, op), s.R(q).msgs[0];
      hide Inv, Step, Perform, Dequeued, QueueOf, Texts;
      if h != q {
        UnreadTexts(s, t, q, h, b);
      } else {
        DequeuedTexts(s, t, h, b);
      }
    }
  }

  lemma DequeuedTexts(s: State, t: State, h: int, b: int)
    requires Dequeued(s, t, h, b, false)
    ensures [s.M(b).text] + Texts(t, h) == Texts(s, h)
  {
    var msgs := s.R(h).msgs;
    assert forall i :: 0 < i < |msgs| ==> t.R(h).msgs[i - 1] == msgs[i];
  }

  lemma DestroySpares(s: State, id: int, h: int)
    requires Inv(s) && h in s.listed && h in Destroy(s, id).s.listed
    ensures Texts(Destroy(s, id).s, h) == Texts(s, h)
  {
    var q, t := ById(s, s.listed, id), Destroy(s, id).s;
    DestroyIs(s, id);
    if q != NULL && s.R(q).ptrs == [] {
      DestroyedKeeps(s, q);
      assert Distinct(s.listed);
      RemoveMembers(s.listed, q);
      assert NoSharedBlock(s) by { assert MsgInv(s); }
      hide Inv, Destroyed, Destroy;
      assert SameQueue(s, t, h);
      SameTexts(s, t, h);
    }
  }

  /** One call: what is read comes off the front, what is accepted goes to the end. */
  lemma StepFifo(s: State, op: Op, h: int)
    requires Inv(s) && CanStep(s, op) && h in s.listed && h in Step(s, op).listed
    ensures Received(s, op, h) + Texts(Step(s, op), h) == Texts(s, h) + Accepted(s, op, h)
  {
    if op.WriteOp? {
      hide Inv, Step, Texts;
      WriteDelivers(s, op, h);
    } else if op.ReadOp? {
      hide Inv, Step, Texts;
      ReadDelivers(s, op, h);
    } else if op.DestroyOp? {
      hide Inv, Texts, Destroy;
      DestroySpares(s, op.id, h);
    } else {
      hide Inv, Step, Texts;
      QuietSteps(s, op);
      assert SameQueue(s, Step(s, op), h);
      SameTexts(s, Step(s, op), h);
    }
  }

  // ---------- runs ----------

  /** The queue exists from the first state of the run to the last. */
  predicate Lives(s: State, ops: seq<Op>, h: int)
    requires ValidRun(s, ops)
    decreases ops
  {
    h in s.listed && (ops == [] || Lives(Step(s, ops[0]), ops[1..], h))
  }

  function AllWritten(s: State, ops: seq<Op>, h: int): seq<Text>
    requires ValidRun(s, ops)
    decreases ops
  {
    if ops == [] then [] else Written(s, ops[0], h) + AllWritten(Step(s, ops[0]), ops[1..], h)
  }

  function AllAccepted(s: State, ops: seq<Op>, h: int): seq<Text>
    requires ValidRun(s, ops)
    decreases ops
  {
    if ops == [] then [] else Accepted(s, ops[0], h) + AllAccepted(Step(s, ops[0]), ops[1..], h)
  }

  function AllReceived(s: State, ops: seq<Op>, h: int): seq<Text>
    requires ValidRun(s, ops)
    decreases ops
  {
    if ops == [] then [] else Received(s, ops[0], h) + AllReceived(Step(s, ops[0]), ops[1..], h)
  }

  /** In every run, the messages read followed by the messages still queued are the messages that were
      queued at first followed by those accepted, in order and byte for byte. */
  lemma {:induction false} RunFifo(s: State, ops: seq<Op>, h: int)
    requires Inv(s) && ValidRun(s, ops) && Lives(s, ops, h)
    ensures AllReceived(s, ops, h) + Texts(After(s, ops), h) == Texts(s, h) + AllAccepted(s, ops, h)
    decreases ops
  {
    if ops != [] {
      hide Inv, Step, Texts, Received, Accepted;
      var op, t, rest := ops[0], Step(s, ops[0]), ops[1..];
      StepFifo(s, op, h);
      StepKeepsInv(s, op);
      RunFifo(t, rest, h);
      var r, u := AllReceived(t, rest, h), Texts(After(t, rest), h);
      Chain(Received(s, op, h), Texts(t, h), Texts(s, h), Accepted(s, op, h), r, u, AllAccepted(t, rest, h));
    }
  }

  lemma Chain<T>(r: seq<T>, mid: seq<T>, start: seq<T>, a: seq<T>, r': seq<T>, end: seq<T>, a': seq<T>)
    requires r + mid == start + a && r' + end == mid + a'
    ensures (r + r') + end == start + (a + a')
  {
    assert (r + r') + end == r + (r' + end);
    assert r + (mid + a') == (r + mid) + a';
    assert (start + a) + a' == start + (a + a');
  }

  /** Some write into the queue is refused although it returns the length of its message. */
  predicate SomeRefused(s: State, ops: seq<Op>, h: int)
    requires ValidRun(s, ops)
    decreases ops
  {
    ops != [] && (Refused(s, ops[0], h) || SomeRefused(Step(s, ops[0]), ops[1..], h))
  }

  lemma {:induction false} AcceptedIsWritten(s: State, ops: seq<Op>, h: int)
    requires ValidRun(s, ops)
    ensures AllAccepted(s, ops, h) == AllWritten(s, ops, h) <==> !SomeRefused(s, ops, h)
    ensures |AllAccepted(s, ops, h)| <= |AllWritten(s, ops, h)|
    ensures SomeRefused(s, ops, h) ==> |AllAccepted(s, ops, h)| < |AllWritten(s, ops, h)|
    decreases ops
  {
    if ops != [] {
      hide Step, Written;
      AcceptedIsWritten(Step(s, ops[0]), ops[1..], h);
    }
  }

  /** A queue delivers every message whose length a write returned exactly when none of them is refused. */
  lemma LosslessIff(s: State, ops: seq<Op>, h: int)
    requires Inv(s) && ValidRun(s, ops) && Lives(s, ops, h)
    ensures AllReceived(s, ops, h) + Texts(After(s, ops), h) == Texts(s, h) + AllWritten(s, ops, h)
            <==> !SomeRefused(s, ops, h)
  {
    hide Inv, Step, Texts;
    RunFifo(s, ops, h);
    AcceptedIsWritten(s, ops, h);
    var a, b, q := AllAccepted(s, ops, h), AllWritten(s, ops, h), Texts(s, h);
    assert |q + a| == |q| + |a| && |q + b| == |q| + |b|;
  }

  // ---------- when no write is refused ----------

  /** No free message block has links left over. */
  ghost predicate Clean(s: State) {
    forall b :: b in s.freeMsgs ==> !s.M(b).stale
  }

  /** The destruction of a queue that still holds two messages or more. */
  predicate Rough(s: State, op: Op) {
    op.DestroyOp? &&
    var h := ById(s, s.listed, op.id);
    h != NULL && s.R(h).ptrs == [] && |s.R(h).msgs| >= 2
  }

  lemma StepClean(s: State, op: Op)
    requires Inv(s) && CanStep(s, op) && Clean(s)
    ensures Clean(Step(s, op)) <==> !Rough(s, op)
  {
    if op.WriteOp? {
      hide Inv, Step, Clean;
      WriteClean(s, op);
    } else if op.ReadOp? {
      hide Inv, Step, Clean;
      ReadClean(s, op);
    } else if op.DestroyOp? {
      var h := ById(s, s.listed, op.id);
      DestroyIs(s, op.id);
      if h != NULL && s.R(h).ptrs == [] {
        DestroyedKeeps(s, h);
        hide Inv, Destroyed, Destroy, ById, Clean, Emptied;
        EmptiedClean(s, Destroyed(s, h), h, |s.R(h).msgs| >= 2);
      }
    } else {
      hide Inv, Step, Perform;
      QuietSteps(s, op);
      assert forall b :: Step(s, op).M(b) == s.M(b);
    }
  }

  lemma EmptiedClean(s: State, t: State, h: int, stale: bool)
    requires Emptied(s, t, h, stale) && Clean(s)
    ensures Clean(t) <==> s.R(h).msgs == [] || !stale
  {
    if stale && s.R(h).msgs != [] {
      var b := AMember(s.R(h).msgs);
      assert b in t.freeMsgs && t.M(b).stale;
    }
  }

  lemma WriteClean(s: State, op: Op)
    requires Inv(s) && CanStep(s, op) && Clean(s) && op.WriteOp?
    ensures Clean(Step(s, op))
  {
    var q := QueueOf(s, op.p, op.fd);
    WriteEffect(s, op, q);
    if Written(s, op, q) != [] {
      HeadIsFree(s);
      hide Inv, Step, QueueOf, Written, CanStep;
      assert forall x: int :: x in s.freeMsgs[1..] ==> x in s.freeMsgs;
    }
  }

  lemma ReadClean(s: State, op: Op)
    requires Inv(s) && CanStep(s, op) && Clean(s) && op.ReadOp?
    ensures Clean(Step(s, op))
  {
    var q := QueueOf(s, op.p, op.fd);
    ReadEffect(s, op, q);
    hide Inv, Step, QueueOf, Received, CanStep;
  }

  predicate Gentle(s: State, ops: seq<Op>)
    requires ValidRun(s, ops)
    decreases ops
  {
    ops == [] || (!Rough(s, ops[0]) && Gentle(Step(s, ops[0]), ops[1..]))
  }

  lemma CleanAccepts(s: State, op: Op, h: int)
    requires CanStep(s, op) && Clean(s)
    ensures !Refused(s, op, h)
  {
    if Written(s, op, h) != [] {
      assert s.freeMsgs[0] in s.freeMsgs;
    }
  }

  lemma {:induction false} GentleRun(s: State, ops: seq<Op>, h: int)
    requires Inv(s) && Clean(s) && ValidRun(s, ops) && Gentle(s, ops)
    ensures Clean(After(s, ops)) && !SomeRefused(s, ops, h)
    decreases ops
  {
    if ops != [] {
      CleanAccepts(s, ops[0], h);
      hide Inv, Step, Refused, Rough, Clean;
      StepClean(s, ops[0]);
      StepKeepsInv(s, ops[0]);
      GentleRun(Step(s, ops[0]), ops[1..], h);
    }
  }

  /** Over a run in which no queue is destroyed with two messages or more in it, the messages read from
      a queue, followed by those in it, are those in it at first and those whose length a write returned. */
  lemma Lossless(s: State, ops: seq<Op>, h: int)
    requires Inv(s) && Clean(s) && ValidRun(s, ops) && Gentle(s, ops) && Lives(s, ops, h)
    ensures AllReceived(s, ops, h) + Texts(After(s, ops), h) == Texts(s, h) + AllWritten(s, ops, h)
  {
    hide Inv, Clean, Texts;
    GentleRun(s, ops, h);
    LosslessIff(s, ops, h);
  }

  lemma NoTexts(s: State, h: int)
    ensures Texts(s, h) == [] <==> s.R(h).msgs == []
  {
  }

  lemma BothEmpty<T>(a: seq<T>, end: seq<T>, start: seq<T>, b: seq<T>)
    requires a + end == start + b && start == [] && end == []
    ensures a == b
  {
    assert a + end == a && start + b == b;
  }

  /** A read from queue h that tells its caller that there is nothing to read. */
  predicate ReportsEmpty(s: State, op: Op, h: int) {
    && op.ReadOp? && CanStep(s, op) && QueueOf(s, op.p, op.fd) == h
    && (Perform(s, op).ret == Value(DSOS_WAITINGFORMESSAGE) || Perform(s, op).ret == Value(DSOS_MESSAGEQUEUEEMPTY))
  }

  lemma ReportedEmpty(s: State, op: Op, h: int)
    requires ReportsEmpty(s, op, h)
    ensures s.R(h).msgs == []
  {
  }

  /** A read that reports an empty queue: every message whose length a write returned has been read. */
  lemma EmptyMeansAllRead(s: State, ops: seq<Op>, h: int, op: Op)
    requires Inv(s) && Clean(s) && ValidRun(s, ops) && Gentle(s, ops) && Lives(s, ops, h) && s.R(h).msgs == []
    requires ReportsEmpty(After(s, ops), op, h)
    ensures AllReceived(s, ops, h) == AllWritten(s, ops, h)
  {
    hide *;
    ReportedEmpty(After(s, ops), op, h);
    NoTexts(s, h);
    NoTexts(After(s, ops), h);
    Lossless(s, ops, h);
    BothEmpty(AllReceived(s, ops, h), Texts(After(s, ops), h), Texts(s, h), AllWritten(s, ops, h));
  }

  lemma FinishKeepsListed(s: State, p: int, h: int, mode: int)
    requires s.freeDescs != [] ==> s.freePtrs != []
    ensures Finish(s, p, h, mode).s.listed == s.listed
  {
  }

  /** A queue that has just been created is empty. */
  lemma CreatedIsEmpty(s: State, p: int, id: int)
    requires Inv(s) && CanOpen(s, id, MESSAGE_QUEUE_TYPE, DSOS_CREATE) && ById(s, s.listed, id) == NULL
    ensures s.freeMq != []
    ensures var h, t := s.freeMq[0], Open(s, p, id, MESSAGE_QUEUE_TYPE, DSOS_CREATE).s;
            h in t.listed && Texts(t, h) == []
  {
    var h, u := s.freeMq[0], NewResource(s, id, MESSAGE_QUEUE_TYPE);
    assert HandlesOk(s) && h in s.freeMq;
    assert h !in s.listed;
    UnlistedIsEmpty(s, h);
    OpenSameMessages(s, p, id, MESSAGE_QUEUE_TYPE, DSOS_CREATE);
    hide Inv, HandlesOk, Finish;
    assert h in u.listed && u.freeDescs == s.freeDescs && u.freePtrs == s.freePtrs;
    FinishKeepsListed(u, p, h, DSOS_CREATE);
  }

  // ---------- blocks that are lost ----------

  /** A write that is refused, whatever its queue. */
  predicate Refuses(s: State, op: Op)
    requires CanStep(s, op)
  {
    op.WriteOp? && Refused(s, op, QueueOf(s, op.p, op.fd))
  }

  /** A block leaves the pool for good exactly at a refused write. */
  lemma StepLost(s: State, op: Op)
    requires Inv(s) && CanStep(s, op)
    ensures Step(s, op).lost == if Refuses(s, op) then [s.freeMsgs[0]] + s.lost else s.lost
    ensures |Step(s, op).msgs| == |s.msgs|
  {
    if op.WriteOp? {
      hide Inv, Step, QueueOf, CanStep, Written;
      WriteEffect(s, op, QueueOf(s, op.p, op.fd));
    } else if op.ReadOp? {
      hide Inv, Step, QueueOf, CanStep, Received;
      ReadEffect(s, op, QueueOf(s, op.p, op.fd));
    } else if op.DestroyOp? {
      var h := ById(s, s.listed, op.id);
      DestroyIs(s, op.id);
      if h != NULL && s.R(h).ptrs == [] {
        DestroyedKeeps(s, h);
        hide Inv, Destroyed, Destroy, ById;
      }
    } else {
      hide Inv, Step;
      QuietSteps(s, op);
    }
  }

  /** The number of writes of the run that are refused, whatever their queue. */
  function Refusals(s: State, ops: seq<Op>): nat
    requires ValidRun(s, ops)
    decreases ops
  {
    if ops == [] then 0 else (if Refuses(s, ops[0]) then 1 else 0) + Refusals(Step(s, ops[0]), ops[1..])
  }

  lemma {:induction false} RunLost(s: State, ops: seq<Op>)
    requires Inv(s) && ValidRun(s, ops)
    ensures |After(s, ops).lost| == |s.lost| + Refusals(s, ops) && |After(s, ops).msgs| == |s.msgs|
    decreases ops
  {
    if ops != [] {
      hide Inv, Step, Refuses;
      StepLost(s, ops[0]);
      StepKeepsInv(s, ops[0]);
      RunLost(Step(s, ops[0]), ops[1..]);
    }
  }

  lemma {:induction false} GentleRefusesNone(s: State, ops: seq<Op>)
    requires Inv(s) && Clean(s) && ValidRun(s, ops) && Gentle(s, ops)
    ensures Refusals(s, ops) == 0
    decreases ops
  {
    if ops != [] {
      if ops[0].WriteOp? { CleanAccepts(s, ops[0], QueueOf(s, ops[0].p, ops[0].fd)); }
      hide Inv, Step, Refused, Rough, Clean;
      StepClean(s, ops[0]);
      StepKeepsInv(s, ops[0]);
      GentleRefusesNone(Step(s, ops[0]), ops[1..]);
    }
  }

  lemma BootClean(standard: nat, queues: nat, descriptors: nat, processes: nat, messages: nat)
    ensures Clean(Boot(standard, queues, descriptors, processes, messages))
    ensures Boot(standard, queues, descriptors, processes, messages).lost == []
  {
  }

  /** From the start, the blocks that are neither free nor in a queue are as many as the writes refused, so
      none is missing over runs without a rough destruction. */
  lemma BlocksConserved(standard: nat, queues: nat, descriptors: nat, processes: nat, messages: nat, ops: seq<Op>)
    requires ValidRun(Boot(standard, queues, descriptors, processes, messages), ops)
    ensures var s := Boot(standard, queues, descriptors, processes, messages);
            && |After(s, ops).freeMsgs| + Total(After(s, ops).res) + Refusals(s, ops) == messages
            && (Gentle(s, ops) ==> |After(s, ops).freeMsgs| + Total(After(s, ops).res) == messages)
  {
    var s := Boot(standard, queues, descriptors, processes, messages);
    BootInv(standard, queues, descriptors, processes, messages);
    BootClean(standard, queues, descriptors, processes, messages);
    assert |s.msgs| == messages;
    hide Boot, Clean, Inv, After, ValidRun, Refusals;
    RunConserves(standard, queues, descriptors, processes, messages, ops);
    RunLost(s, ops);
    if Gentle(s, ops) { GentleRefusesNone(s, ops); }
  }

  // ---------- the message that is lost ----------

  lemma {:induction false} DropAllHead(s: State, h: int, stale: bool)
    requires MsgInv(s) && 0 <= h < |s.res| && s.R(h).msgs != []
    ensures var t := DropAll(s, h, stale); t.freeMsgs != [] && t.M(t.freeMsgs[0]).stale == stale
    decreases |s.R(h).msgs|
  {
    var t, b := Drop(s, h, stale), s.R(h).msgs[0];
    DropDequeues(s, h, stale);
    DequeuedKeeps(s, t, h, b, stale);
    hide MsgInv, Drop;
    if t.R(h).msgs != [] {
      DropAllHead(t, h, stale);
    } else {
      assert DropAll(t, h, stale) == t;
      assert t.freeMsgs[0] == b;
    }
  }

  /** The first write after a rough destruction that returns a length, whatever its queue, is refused: the
      message is nowhere and the queue stays as it was. */
  lemma RoughLosesNext(s: State, destroy: Op, write: Op, h: int)
    requires Inv(s) && CanStep(s, destroy) && Rough(s, destroy)
    requires write.WriteOp? && CanStep(Step(s, destroy), write) && Written(Step(s, destroy), write, h) != []
    ensures var t := Step(s, destroy); Refused(t, write, h) && Texts(Step(t, write), h) == Texts(t, h)
  {
    var q := ById(s, s.listed, destroy.id);
    var u := Unlist(s, q);
    DestroyIs(s, destroy.id);
    StepKeepsInv(s, destroy);
    ListedInRange(s, q);
    UnlistMessages(s, q);
    hide Inv, DropAll, MsgInv, Written, Texts;
    DropAllHead(u, q, true);
    WriteDelivers(Step(s, destroy), write, h);
  }
}
