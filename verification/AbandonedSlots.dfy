/** A process that exits with a slot of a message queue takes the slot with it. */
module AbandonedSlots {
  import opened Sequences
  import opened ResourceModel
  import opened Messages
  import opened Descriptors
  import opened ResourceSteps
  import opened Exclusivity

  /** The slot of a queue block names a process, and nothing is open in its mode. */
  ghost predicate LostSlot(s: State, h: int, m: int) {
    Abandoned(s, h, m) && h !in s.freeStd
  }

  lemma AbandonedSame(s: State, t: State, h: int, m: int)
    requires Abandoned(s, h, m) && SameSlot(s, t, h)
    ensures Abandoned(t, h, m)
  {
    WithSame(s, t, s.R(h).ptrs, m);
    hide With;
  }

  lemma LinkedKeepsSlot(s: State, t: State, p: int, k: int, d: int, mode: int, h: int, m: int)
    requires Abandoned(s, h, m) && Linked(s, t, p, k, d) && t.D(d).mode == mode && d !in s.R(h).ptrs
    requires k == h ==> mode != m
    ensures Abandoned(t, h, m)
  {
    if k == h {
      WithAppended(s, t, s.R(h).ptrs, d, m);
    } else {
      WithSame(s, t, s.R(h).ptrs, m);
    }
    hide With;
  }

  lemma FinishKeepsSlot(s: State, p: int, k: int, mode: int, h: int, m: int)
    requires DescInv(s) && LostSlot(s, h, m) && 0 <= p < |s.holders| && 0 <= k < |s.res|
    requires k == h ==> mode != m
    ensures s.freeDescs != [] ==> s.freePtrs != []
    ensures LostSlot(Finish(s, p, k, mode).s, h, m)
  {
    if s.freeDescs != [] {
      var d := s.freeDescs[0];
      LinkLinks(s, p, k, mode);
      LinkMode(s, p, k, mode);
      FreeNotEntered(s, d);
      hide DescInv, Abandoned, Link;
      LinkedKeepsSlot(s, Link(s, p, k, mode), p, k, d, mode, h, m);
    }
  }

  lemma NewResourceKeepsSlot(s: State, id: int, kind: int, h: int, m: int)
    requires DescInv(s) && LostSlot(s, h, m) && FreeOf(s, kind) != []
    ensures LostSlot(NewResource(s, id, kind), h, m)
  {
    var f, t := FreeOf(s, kind)[0], NewResource(s, id, kind);
    assert HandlesOk(s) && f in FreeOf(s, kind);
    assert f !in s.listed;
    assert forall x: int :: x in t.freeStd ==> x in s.freeStd;
    UnlistedIsEmpty(s, f);
    hide DescInv, HandlesOk;
    if f != h {
      assert SameSlot(s, t, h);
    } else {
      assert kind == MESSAGE_QUEUE_TYPE && SameSlot(s, t, h);
    }
    AbandonedSame(s, t, h, m);
  }

  /** The slot is taken, so no open in its mode succeeds. */
  lemma TakeKeepsSlot(s: State, k: int, mode: int, p: int, h: int, m: int)
    requires LostSlot(s, h, m) && !SlotTaken(s.R(k), mode)
    ensures LostSlot(TakeSlot(s, k, mode, p), h, m) && (k == h ==> mode != m)
  {
    var t := TakeSlot(s, k, mode, p);
    assert t.R(h).ptrs == s.R(h).ptrs && forall x :: t.D(x) == s.D(x);
    WithSame(s, t, s.R(h).ptrs, m);
    hide With;
  }

  lemma OpenKeepsSlot(s: State, p: int, id: int, kind: int, mode: int, h: int, m: int)
    requires Inv(s) && LostSlot(s, h, m) && 0 <= p < |s.holders| && CanOpen(s, id, kind, mode)
    ensures LostSlot(Open(s, p, id, kind, mode).s, h, m)
  {
    var k := ById(s, s.listed, id);
    assert DescInv(s);
    CreateIsNoSlot(s, h, m);
    hide Inv, DescInv, LostSlot, Finish, NewResource, TakeSlot, ById;
    if mode == DSOS_CREATE {
      if k == NULL {
        NewResourceKeeps(s, id, kind);
        NewDescInv(s, id, kind);
        NewResourceKeepsSlot(s, id, kind, h, m);
        FinishKeepsSlot(NewResource(s, id, kind), p, FreeOf(s, kind)[0], mode, h, m);
      }
    } else if k != NULL && s.R(k).kind == kind {
      KindOfListed(s, k);
      if kind == STANDARD_RESOURCE_TYPE {
        NotStandard(s, h, m);
        FinishKeepsSlot(s, p, k, mode, h, m);
      } else if !SlotTaken(s.R(k), mode) {
        TakeKeepsSlot(s, k, mode, p, h, m);
        TakenKeeps(s, k, mode, p);
        FinishKeepsSlot(TakeSlot(s, k, mode, p), p, k, mode, h, m);
      }
    }
  }

  lemma CreateIsNoSlot(s: State, h: int, m: int)
    requires LostSlot(s, h, m)
    ensures m != DSOS_CREATE
  {
  }

  lemma NotStandard(s: State, h: int, m: int)
    requires LostSlot(s, h, m)
    ensures s.R(h).kind == MESSAGE_QUEUE_TYPE
  {
  }

  lemma NewDescInv(s: State, id: int, kind: int)
    requires FreeOf(s, kind) != [] && Inv(NewResource(s, id, kind))
    requires FreeOf(s, kind)[0] in NewResource(s, id, kind).listed
    ensures DescInv(NewResource(s, id, kind)) && 0 <= FreeOf(s, kind)[0] < |NewResource(s, id, kind).res|
  {
    ListedInRange(NewResource(s, id, kind), FreeOf(s, kind)[0]);
  }

  /** A close that names the mode of the slot and a descriptor of its queue. */
  predicate Clears(s: State, op: Op, h: int, m: int) {
    op.CloseOp? && op.mode == m &&
    var d := ByFd(s, s.H(op.p).descs, op.fd);
    d != NULL && s.D(d).res == h
  }

  lemma CloseKeepsSlot(s: State, p: int, fd: int, mode: int, h: int, m: int)
    requires Inv(s) && LostSlot(s, h, m) && 0 <= p < |s.holders|
    ensures LostSlot(Close(s, p, fd, mode).s, h, m) <==> !Clears(s, CloseOp(p, fd, mode), h, m)
  {
    var d := ByFd(s, s.H(p).descs, fd);
    if d != NULL {
      CloseLeaves(s, p, fd, mode);
      hide Inv, Abandoned, Left;
      AbandonedStays(s, Close(s, p, fd, mode).s, s.D(d).res, d, mode, h, m);
    }
  }

  lemma DestroyKeepsSlot(s: State, id: int, h: int, m: int)
    requires Inv(s) && LostSlot(s, h, m)
    ensures LostSlot(Destroy(s, id).s, h, m)
  {
    var k := ById(s, s.listed, id);
    DestroyIs(s, id);
    if k != NULL && s.R(k).ptrs == [] {
      DestroyedKeeps(s, k);
      hide Inv, Destroy, Destroyed, ById, Emptied, LostSlot, Unlisted;
      UnlistedKeepsSlot(s, Destroyed(s, k), k, h, m);
    }
  }

  lemma UnlistedKeepsSlot(s: State, t: State, k: int, h: int, m: int)
    requires LostSlot(s, h, m) && Unlisted(s, t, k)
    ensures LostSlot(t, h, m)
  {
    hide Remove;
    assert SameSlot(s, t, h);
    AbandonedSame(s, t, h, m);
  }

  lemma WriteSameSlot(s: State, p: int, fd: int, buffer: seq<char>, length: int, h: int)
    requires CanWrite(s, p, fd, buffer, length)
    ensures SameSlot(s, Write(s, p, fd, buffer, length).s, h) && Write(s, p, fd, buffer, length).s.freeStd == s.freeStd
  {
    hide QueueOf;
  }

  lemma ReadSameSlot(s: State, p: int, fd: int, length: int, h: int)
    ensures SameSlot(s, Read(s, p, fd, length).s, h) && Read(s, p, fd, length).s.freeStd == s.freeStd
  {
    hide QueueOf;
  }

  lemma MessagesKeepSlot(s: State, op: Op, h: int, m: int)
    requires LostSlot(s, h, m) && CanStep(s, op) && (op.WriteOp? || op.ReadOp?)
    ensures LostSlot(Step(s, op), h, m)
  {
    hide Abandoned, Write, Read, CanWrite, SameSlot;
    if op.WriteOp? {
      WriteSameSlot(s, op.p, op.fd, op.buffer, op.length, h);
    } else {
      ReadSameSlot(s, op.p, op.fd, op.length, h);
    }
    AbandonedSame(s, Step(s, op), h, m);
  }

  lemma {:induction false} ReleaseKeepsStandard(s: State, p: int)
    ensures Release(s, p).freeStd == s.freeStd
    decreases |s.H(p).descs|
  {
    if s.H(p).descs != [] && 0 <= p < |s.holders| {
      UnlinkedSizes(s, p, s.H(p).descs[0]);
      ReleaseKeepsStandard(Unlink(s, p, s.H(p).descs[0]), p);
    }
  }

  /** Exactly such a close gives the slot back. */
  lemma StepKeepsSlot(s: State, op: Op, h: int, m: int)
    requires Inv(s) && LostSlot(s, h, m) && CanStep(s, op)
    ensures LostSlot(Step(s, op), h, m) <==> !Clears(s, op, h, m)
  {
    match op
    case OpenOp(p, id, kind, mode) =>
      hide Inv, LostSlot, Open;
      OpenKeepsSlot(s, p, id, kind, mode, h, m);
    case CloseOp(p, fd, mode) =>
      hide Inv, LostSlot, Close;
      CloseKeepsSlot(s, p, fd, mode, h, m);
    case DestroyOp(id) =>
      hide Inv, LostSlot, Destroy;
      DestroyKeepsSlot(s, id, h, m);
    case WriteOp(_, _, _, _) =>
      hide Inv, LostSlot, Step;
      MessagesKeepSlot(s, op, h, m);
    case ReadOp(_, _, _) =>
      hide Inv, LostSlot, Step;
      MessagesKeepSlot(s, op, h, m);
    case ReleaseOp(p) =>
      hide Inv, Abandoned, Release;
      AbandonedForGood(s, p, h, m);
      ReleaseKeepsStandard(s, p);
    case ResetOp(p) =>
      hide Inv, Abandoned;
      AbandonedSame(s, Reset(s, p), h, m);
  }

  predicate NeverCleared(s: State, ops: seq<Op>, h: int, m: int)
    requires ValidRun(s, ops)
    decreases ops
  {
    ops == [] || (!Clears(s, ops[0], h, m) && NeverCleared(Step(s, ops[0]), ops[1..], h, m))
  }

  /** An abandoned slot stays taken, through the destruction of the queue and the creation of another one
      in the same block, and every attempt to open the block's queue in that mode fails. */
  lemma {:induction false} SlotIsLost(s: State, ops: seq<Op>, h: int, m: int, p: int)
    requires Inv(s) && LostSlot(s, h, m) && ValidRun(s, ops) && NeverCleared(s, ops, h, m)
    ensures var t := After(s, ops);
            && LostSlot(t, h, m)
            && (h in t.listed && CanOpen(t, t.R(h).id, MESSAGE_QUEUE_TYPE, m) ==>
                  Open(t, p, t.R(h).id, MESSAGE_QUEUE_TYPE, m) == Fail(t, DSOS_ERESOURCEOPEN))
    decreases ops
  {
    if ops == [] {
      if h in s.listed { OpenRefused(s, h, m, p); }
    } else {
      hide Inv, LostSlot, Step, CanStep, Open, CanOpen, Clears;
      StepKeepsSlot(s, ops[0], h, m);
      StepKeepsInv(s, ops[0]);
      SlotIsLost(Step(s, ops[0]), ops[1..], h, m, p);
    }
  }

  lemma OpenRefused(s: State, h: int, m: int, p: int)
    requires Inv(s) && LostSlot(s, h, m) && h in s.listed
    ensures CanOpen(s, s.R(h).id, MESSAGE_QUEUE_TYPE, m) ==>
              Open(s, p, s.R(h).id, MESSAGE_QUEUE_TYPE, m) == Fail(s, DSOS_ERESOURCEOPEN)
  {
    IdsAreKeys(s, h, s.R(h).id);
    ListedInRange(s, h);
    hide Inv, Finish, NewResource, TakeSlot;
  }

  // ---------- how a slot is lost ----------

  /** Descriptor d is the one that is open in the mode of the slot. */
  ghost predicate HeldSlot(s: State, h: int, m: int, d: int) {
    && s.R(h).kind == MESSAGE_QUEUE_TYPE && (m == DSOS_READ || m == DSOS_WRITE)
    && SlotOf(s.R(h), m) != NULL && With(s, s.R(h).ptrs, m) == [d]
  }

  /** Unlinking d abandons the slot; unlinking another descriptor leaves it held. */
  lemma LeftHeld(s: State, t: State, k: int, e: int, h: int, m: int, d: int)
    requires Left(s, t, k, e, 0) && e in s.R(k).ptrs && HeldSlot(s, h, m, d) && s.D(d).res == h && s.D(e).res == k
    ensures if e == d then Abandoned(t, h, m) else HeldSlot(t, h, m, d)
    ensures t.D(d) == s.D(d)
  {
    var open := With(s, s.R(h).ptrs, m);
    assert d in open;
    WithSame(s, t, s.R(h).ptrs, m);
    LeftOpen(s, t, k, e, 0, m);
    hide With, Remove;
  }

  lemma {:induction false} ReleaseAbandons(s: State, p: int, h: int, m: int, d: int)
    requires Inv(s) && 0 <= p < |s.holders| && d in s.H(p).descs && s.D(d).res == h && HeldSlot(s, h, m, d)
    ensures Abandoned(Release(s, p), h, m)
    decreases |s.H(p).descs|
  {
    var e := s.H(p).descs[0];
    var t := Unlink(s, p, e);
    assert DescInv(s);
    ReleaseOne(s, p);
    hide Inv, DescInv, Unlink, Abandoned, HeldSlot, HoldsSlot, Left, Release;
    UnlinkKeeps(s, p, e);
    UnlinkedSizes(s, p, e);
    UnlinkLeaves(s, p, e);
    UnlinkSpares(s, p, e);
    LeftHeld(s, t, s.D(e).res, e, h, m, d);
    if e == d {
      AbandonedForGood(t, p, h, m);
    } else {
      ReleaseAbandons(t, p, h, m, d);
    }
  }

  /** The exit of a process abandons every slot that it holds. */
  lemma ExitAbandons(s: State, p: int, d: int)
    requires Inv(s) && Exclusive(s) && 0 <= p < |s.holders| && d in s.H(p).descs && HoldsSlot(s, d)
    ensures Abandoned(Release(s, p), s.D(d).res, s.D(d).mode)
  {
    hide Inv, Exclusive, HeldSlot, Abandoned, HandleOk, HoldsSlot;
    var h, m := s.D(d).res, s.D(d).mode;
    Entered(s, p, d);
    ExclusiveAt(s, h);
    HeldAt(s, d);
    ReleaseAbandons(s, p, h, m, d);
  }

  lemma Entered(s: State, p: int, d: int)
    requires Inv(s) && d in s.H(p).descs
    ensures d in s.R(s.D(d).res).ptrs
  {
    assert Held(s, p, d);
  }

  lemma HeldAt(s: State, d: int)
    requires HandleOk(s, s.D(d).res) && HoldsSlot(s, d) && d in s.R(s.D(d).res).ptrs
    ensures HeldSlot(s, s.D(d).res, s.D(d).mode, d)
  {
    var open := With(s, s.R(s.D(d).res).ptrs, s.D(d).mode);
    assert d in open;
  }
}
