/** What happens when a process leaves the system with its descriptors still open. */
module Leaks {
  import opened Sequences
  import opened ResourceModel
  import opened Messages
  import opened Descriptors
  import opened ResourceSteps

  /** Entry x of resource h belongs to no process any more. */
  ghost predicate Leaked(s: State, h: int, x: int) {
    x in s.R(h).ptrs && forall p :: x !in s.H(p).descs
  }

  /** A new process in the block of one that left a descriptor behind leaks the entry. */
  lemma ForgottenLeaks(s: State, p: int, d: int)
    requires Inv(s) && 0 <= p < |s.holders| && d in s.H(p).descs
    ensures Leaked(Reset(s, p), s.D(d).res, d)
  {
    assert Held(s, p, d);
    forall q ensures d !in Reset(s, p).H(q).descs {
      assert q != p && d in s.H(q).descs ==> Held(s, q, d);
    }
  }

  lemma FinishKeepsLeak(s: State, p: int, k: int, mode: int, h: int, x: int)
    requires Inv(s) && Leaked(s, h, x) && 0 <= p < |s.holders| && k in s.listed
    requires s.freeDescs != [] ==> s.freePtrs != []
    ensures Leaked(Finish(s, p, k, mode).s, h, x)
  {
    assert InUse(s, x);
    if s.freeDescs != [] {
      ListedInRange(s, k);
      assert PoolsOk(s);
      LinkLinks(s, p, k, mode);
      assert s.freeDescs[0] in s.freeDescs;
      hide Inv, Link, PoolsOk;
    }
  }

  lemma UnlinkKeepsLeak(s: State, p: int, d: int, h: int, x: int)
    requires Inv(s) && Leaked(s, h, x) && 0 <= p < |s.holders| && d in s.H(p).descs
    ensures Leaked(Unlink(s, p, d), h, x)
  {
    UnlinkUnlinks(s, p, d);
    UnlinkedMembers(s, Unlink(s, p, d), p, s.D(d).res, d);
    hide Inv, Unlink, Unlinked;
  }

  lemma {:induction false} ReleaseKeepsLeak(s: State, p: int, h: int, x: int)
    requires Inv(s) && Leaked(s, h, x) && 0 <= p < |s.holders|
    ensures Leaked(Release(s, p), h, x)
    decreases |s.H(p).descs|
  {
    hide Inv, Leaked, Unlink;
    if s.H(p).descs != [] {
      var d := s.H(p).descs[0];
      UnlinkKeepsLeak(s, p, d, h, x);
      UnlinkKeeps(s, p, d);
      UnlinkedSizes(s, p, d);
      ReleaseKeepsLeak(Unlink(s, p, d), p, h, x);
    }
  }

  lemma SameLeak(s: State, t: State, h: int, x: int)
    requires Leaked(s, h, x) && t.R(h).ptrs == s.R(h).ptrs && forall p :: t.H(p) == s.H(p) || t.H(p).descs == []
    ensures Leaked(t, h, x)
  {
  }

  lemma LeakedIsListed(s: State, h: int, x: int)
    requires Inv(s) && Leaked(s, h, x)
    ensures h in s.listed
  {
  }

  lemma NewResourceKeepsLeak(s: State, id: int, kind: int, h: int, x: int)
    requires Inv(s) && Leaked(s, h, x) && FreeOf(s, kind) != []
    ensures Leaked(NewResource(s, id, kind), h, x)
    ensures NewResource(s, id, kind).freeDescs == s.freeDescs && NewResource(s, id, kind).freePtrs == s.freePtrs
  {
    LeakedIsListed(s, h, x);
    assert HandlesOk(s) && FreeOf(s, kind)[0] in FreeOf(s, kind);
    assert FreeOf(s, kind)[0] != h;
    hide Inv, HandlesOk;
    SameLeak(s, NewResource(s, id, kind), h, x);
  }

  lemma OpenKeepsLeak(s: State, p: int, id: int, kind: int, mode: int, h: int, x: int)
    requires Inv(s) && Leaked(s, h, x) && 0 <= p < |s.holders| && CanOpen(s, id, kind, mode)
    ensures Leaked(Open(s, p, id, kind, mode).s, h, x)
  {
    hide Inv, Leaked, Finish, NewResource, TakeSlot;
    var k := ById(s, s.listed, id);
    if mode == DSOS_CREATE {
      if k == NULL {
        NewResourceKeepsLeak(s, id, kind, h, x);
        NewResourceKeeps(s, id, kind);
        FinishKeepsLeak(NewResource(s, id, kind), p, FreeOf(s, kind)[0], mode, h, x);
      }
    } else if k != NULL {
      FinishKeepsLeak(s, p, k, mode, h, x);
      TakenLeak(s, k, mode, p, h, x);
      FinishKeepsLeak(TakeSlot(s, k, mode, p), p, k, mode, h, x);
    }
  }

  lemma TakenLeak(s: State, k: int, mode: int, p: int, h: int, x: int)
    requires Inv(s) && Leaked(s, h, x)
    ensures var t := TakeSlot(s, k, mode, p);
            && Inv(t) && Leaked(t, h, x) && t.listed == s.listed && t.holders == s.holders
            && t.freeDescs == s.freeDescs && t.freePtrs == s.freePtrs
  {
    SlotsKeep(s, k, s.R(k).(reader := if mode == DSOS_READ then p else s.R(k).reader,
                            writer := if mode == DSOS_WRITE then p else s.R(k).writer));
    hide Inv;
    SameLeak(s, TakeSlot(s, k, mode, p), h, x);
  }

  lemma CloseKeepsLeak(s: State, p: int, fd: int, mode: int, h: int, x: int)
    requires Inv(s) && Leaked(s, h, x) && 0 <= p < |s.holders|
    ensures Leaked(Close(s, p, fd, mode).s, h, x)
  {
    hide Inv, Leaked, Unlink;
    var d := ByFd(s, s.H(p).descs, fd);
    if d != NULL {
      var k := s.D(d).res;
      var t := s.SetR(k, ClearSlot(s.R(k), mode));
      UnlinkKeepsLeak(s, p, d, h, x);
      SlotsKeep(s, k, ClearSlot(s.R(k), mode));
      SameLeak(s, t, h, x);
      UnlinkKeepsLeak(t, p, d, h, x);
    }
  }

  lemma DestroyKeepsLeak(s: State, id: int, h: int, x: int)
    requires Inv(s) && Leaked(s, h, x)
    ensures Leaked(Destroy(s, id).s, h, x)
  {
    var k := ById(s, s.listed, id);
    DestroyIs(s, id);
    if k != NULL && s.R(k).ptrs == [] {
      DestroyedKeeps(s, k);
      hide Inv, Destroy, Destroyed, ById, Emptied, Unlisted, Leaked;
      UnlistedKeepsLeak(s, Destroyed(s, k), k, h, x);
    }
  }

  lemma UnlistedKeepsLeak(s: State, t: State, k: int, h: int, x: int)
    requires Leaked(s, h, x) && Unlisted(s, t, k)
    ensures Leaked(t, h, x)
  {
    hide Remove;
    assert k != h && t.R(h) == s.R(h);
    SameLeak(s, t, h, x);
  }

  lemma MessagesKeepLeak(s: State, op: Op, h: int, x: int)
    requires Leaked(s, h, x) && CanStep(s, op) && (op.WriteOp? || op.ReadOp?)
    ensures Leaked(Step(s, op), h, x)
  {
    hide QueueOf;
    SameLeak(s, Step(s, op), h, x);
  }

  lemma StepKeepsLeak(s: State, op: Op, h: int, x: int)
    requires Inv(s) && Leaked(s, h, x) && CanStep(s, op)
    ensures Leaked(Step(s, op), h, x)
  {
    match op
    case OpenOp(p, id, kind, mode) =>
      hide Inv, Leaked, Open;
      OpenKeepsLeak(s, p, id, kind, mode, h, x);
    case CloseOp(p, fd, mode) =>
      hide Inv, Leaked, Close;
      CloseKeepsLeak(s, p, fd, mode, h, x);
    case DestroyOp(id) =>
      hide Inv, Leaked, Destroy;
      DestroyKeepsLeak(s, id, h, x);
    case WriteOp(_, _, _, _) =>
      hide Inv, Leaked, Step;
      MessagesKeepLeak(s, op, h, x);
    case ReadOp(_, _, _) =>
      hide Inv, Leaked, Step;
      MessagesKeepLeak(s, op, h, x);
    case ReleaseOp(p) =>
      hide Inv, Leaked, Release;
      ReleaseKeepsLeak(s, p, h, x);
    case ResetOp(p) =>
      hide Inv, Leaked;
      SameLeak(s, Reset(s, p), h, x);
  }

  /** A leaked entry is there for good, and its resource can never be destroyed again. */
  lemma {:induction false} LeakIsForever(s: State, ops: seq<Op>, h: int, x: int)
    requires Inv(s) && Leaked(s, h, x) && ValidRun(s, ops)
    ensures var t := After(s, ops); Leaked(t, h, x) && Destroy(t, t.R(h).id).ret == Value(DSOS_ERESOURCEINUSE)
    decreases ops
  {
    if ops == [] {
      InUseForever(s, h, x);
    } else {
      hide Inv, Leaked, Step;
      StepKeepsLeak(s, ops[0], h, x);
      StepKeepsInv(s, ops[0]);
      LeakIsForever(Step(s, ops[0]), ops[1..], h, x);
    }
  }

  lemma InUseForever(s: State, h: int, x: int)
    requires Inv(s) && Leaked(s, h, x)
    ensures Destroy(s, s.R(h).id).ret == Value(DSOS_ERESOURCEINUSE)
  {
    LeakedIsListed(s, h, x);
    IdsAreKeys(s, h, s.R(h).id);
    ListedInRange(s, h);
    hide Inv, DropAll;
  }
}
