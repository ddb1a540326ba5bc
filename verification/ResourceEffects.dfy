/** What the resource calls answer and what they change, in plain values: every answer against what its caller can
    find out beforehand, and every call that fails against a state that stays as it was. */
module ResourceEffects {
  import opened Sequences
  import opened ResourceModel
  import opened Messages
  import opened Descriptors
  import opened ResourceSteps

  // ---------- lookups ----------

  /** Resource h is listed under this id. */
  ghost predicate Named(s: State, h: int, id: int) {
    h in s.listed && s.R(h).id == id
  }

  ghost predicate Exists(s: State, id: int) {
    exists h :: Named(s, h, id)
  }

  /** Process p holds descriptor d under this fd. */
  ghost predicate Holds(s: State, p: int, d: int, fd: int) {
    d in s.H(p).descs && s.D(d).fd == fd
  }

  ghost predicate HasFd(s: State, p: int, fd: int) {
    exists d :: Holds(s, p, d, fd)
  }

  lemma NullNotListed(s: State)
    requires DescInv(s)
    ensures NULL !in s.listed && forall p :: NULL !in s.H(p).descs
  {
    forall p ensures NULL !in s.H(p).descs {
      assert NULL in s.H(p).descs ==> Held(s, p, NULL);
    }
  }

  /** Block h is the resource with this id, or -1 says that there is none. */
  ghost predicate Resolves(s: State, id: int, h: int) {
    if Exists(s, id) then Named(s, h, id) else h == -1
  }

  ghost predicate ResolvesFd(s: State, p: int, fd: int, d: int) {
    if HasFd(s, p, fd) then Holds(s, p, d, fd) else d == -1
  }

  lemma Lookup(s: State, id: int, h: int)
    requires Inv(s)
    ensures Resolves(s, id, h) <==> h == ById(s, s.listed, id)
    ensures Named(s, h, id) ==> h >= 0
  {
    NullNotListed(s);
    if k :| Named(s, k, id) {
      IdsAreKeys(s, k, id);
    }
    if Named(s, h, id) {
      IdsAreKeys(s, h, id);
      ListedInRange(s, h);
    }
    var f := ById(s, s.listed, id);
    assert f == NULL || Named(s, f, id);
  }

  lemma NamedResolves(s: State, h: int, id: int)
    requires Named(s, h, id)
    ensures Resolves(s, id, h)
  {
  }

  lemma LookupFd(s: State, p: int, fd: int, d: int)
    requires Inv(s)
    ensures ResolvesFd(s, p, fd, d) <==> d == ByFd(s, s.H(p).descs, fd)
    ensures Holds(s, p, d, fd) ==> d >= 0 && s.D(d).res in s.listed
  {
    NullNotListed(s);
    if e :| Holds(s, p, e, fd) {
      FdsAreKeys(s, p, e, fd);
    }
    if Holds(s, p, d, fd) {
      FdsAreKeys(s, p, d, fd);
      assert Held(s, p, d);
    }
    var f := ByFd(s, s.H(p).descs, fd);
    assert f == NULL || Holds(s, p, f, fd);
  }

  // ---------- open ----------

  /** A new resource at the end of the list, from the pool of its kind; a queue keeps the slots of its block. */
  ghost predicate Created(s: State, u: State, h: int, id: int, kind: int) {
    && (if kind == 1 then s.freeMq != [] && h == s.freeMq[0] && u.freeMq == s.freeMq[1..] && u.freeStd == s.freeStd
        else s.freeStd != [] && h == s.freeStd[0] && u.freeStd == s.freeStd[1..] && u.freeMq == s.freeMq)
    && u.listed == s.listed + [h]
    && u.R(h) == Resource(id, kind, [], [], s.R(h).reader, s.R(h).writer)
    && (forall k :: k != h ==> u.R(k) == s.R(k))
    && Elsewhere(s, u)
  }

  /** Mode 2 takes the reader slot, mode 3 the writer slot, another mode none. */
  ghost predicate SlotGiven(s: State, u: State, h: int, mode: int, p: int) {
    && u.R(h).reader == (if mode == 2 then p else s.R(h).reader)
    && u.R(h).writer == (if mode == 3 then p else s.R(h).writer)
    && u.R(h) == s.R(h).(reader := u.R(h).reader, writer := u.R(h).writer)
    && (forall k :: k != h ==> u.R(k) == s.R(k))
    && u.listed == s.listed && u.freeMq == s.freeMq && u.freeStd == s.freeStd && Elsewhere(s, u)
  }

  /** Descriptors, holders and messages are the same. */
  ghost predicate Elsewhere(s: State, u: State) {
    && u.descs == s.descs && u.backs == s.backs && u.freeDescs == s.freeDescs && u.freePtrs == s.freePtrs
    && u.holders == s.holders && u.msgs == s.msgs && u.freeMsgs == s.freeMsgs && u.lost == s.lost
    && |u.res| == |s.res|
  }

  /** The resource is there to be opened: created, or found with its slot free. */
  ghost predicate Ready(s: State, u: State, h: int, p: int, id: int, kind: int, mode: int) {
    if mode == 1 then Created(s, u, h, id, kind)
    else Named(s, h, id) && if kind == 1 then SlotGiven(s, u, h, mode, p) else u == s
  }

  /** The new descriptor. */
  ghost predicate Attached(u: State, t: State, p: int, h: int, mode: int) {
    && u.freeDescs != [] && Linked(u, t, p, h, u.freeDescs[0]) && t.D(u.freeDescs[0]).mode == mode
    && t.msgs == u.msgs && t.freeMsgs == u.freeMsgs && t.lost == u.lost
  }

  /** What an open of resource h, or of none, fails with; 0 if with nothing. */
  function Obstacle(s: State, h: int, kind: int, mode: int): int {
    if mode == 1 then if h >= 0 then -8 else 0
    else if h == -1 || s.R(h).kind != kind then -9
    else if mode == 4 && s.R(h).ptrs != [] then -10
    else if kind == 1 && ((mode == 2 && s.R(h).reader != -1) || (mode == 3 && s.R(h).writer != -1)) then -9
    else 0
  }

  ghost predicate Served(s: State, u: State, t: State, ret: Ret, k: int, op: Op)
    requires op.OpenOp?
  {
    && Ready(s, u, k, op.p, op.id, op.kind, op.mode)
    && if s.freeDescs == [] then t == u && ret == Value(-11)
       else Attached(u, t, op.p, k, op.mode) && ret == Value(s.H(op.p).lastFd)
  }

  lemma CreateReady(s: State, op: Op)
    requires Inv(s) && CanStep(s, op) && op.OpenOp? && op.mode == 1 && ById(s, s.listed, op.id) == -1
    ensures FreeOf(s, op.kind) != [] && 0 <= op.kind <= 1 && FreeOf(s, op.kind)[0] in FreeOf(s, op.kind)
    ensures Created(s, NewResource(s, op.id, op.kind), FreeOf(s, op.kind)[0], op.id, op.kind)
  {
    assert FreeOf(s, op.kind)[0] in FreeOf(s, op.kind);
    assert HandlesOk(s);
    hide MsgInv, DescInv;
  }

  lemma TakeGives(s: State, h: int, mode: int, p: int)
    requires 0 <= h < |s.res|
    ensures SlotGiven(s, TakeSlot(s, h, mode, p), h, mode, p)
  {
  }

  lemma FinishServes(u: State, p: int, h: int, mode: int)
    requires PoolsOk(u) && 0 <= p < |u.holders| && 0 <= h < |u.res|
    ensures u.freeDescs != [] ==> u.freePtrs != []
    ensures var o := Finish(u, p, h, mode);
            if u.freeDescs == [] then o.s == u && o.ret == Value(-11)
            else Attached(u, o.s, p, h, mode) && o.ret == Value(u.H(p).lastFd)
  {
    if u.freeDescs != [] {
      LinkLinks(u, p, h, mode);
      LinkSameMessages(u, p, h, mode);
      assert u.freeDescs[0] in u.freeDescs;
    }
    hide Linked;
  }

  lemma SamePools(s: State, u: State)
    requires PoolsOk(s) && Elsewhere(s, u)
    ensures PoolsOk(u)
  {
  }

  lemma CreateServes(s: State, op: Op)
    requires Inv(s) && CanStep(s, op) && op.OpenOp? && op.mode == 1 && ById(s, s.listed, op.id) == -1
    ensures var k := FreeOf(s, op.kind);
            k != [] && Served(s, NewResource(s, op.id, op.kind), Step(s, op), Perform(s, op).ret, k[0], op)
  {
    CreateReady(s, op);
    assert HandlesOk(s) && PoolsOk(s);
    var u, k := NewResource(s, op.id, op.kind), FreeOf(s, op.kind)[0];
    assert 0 <= k < |s.res|;
    hide Inv, NewResource, Created, Finish, Attached, FreeOf, HandlesOk, PoolsOk, Elsewhere;
    CreatedElsewhere(s, u, k, op.id, op.kind);
    SamePools(s, u);
    FinishServes(u, op.p, k, op.mode);
    ElsewherePools(s, u);
  }

  lemma CreatedElsewhere(s: State, u: State, h: int, id: int, kind: int)
    requires Created(s, u, h, id, kind)
    ensures Elsewhere(s, u)
  {
  }

  lemma ElsewherePools(s: State, u: State)
    requires Elsewhere(s, u)
    ensures u.freeDescs == s.freeDescs && u.holders == s.holders && |u.res| == |s.res|
    ensures forall p :: u.H(p) == s.H(p)
  {
  }

  lemma OpenIsFinish(s: State, op: Op, h: int, u: State)
    requires Inv(s) && CanStep(s, op) && op.OpenOp? && op.mode != 1 && h == ById(s, s.listed, op.id)
    requires Obstacle(s, h, op.kind, op.mode) == 0
    requires u == if s.R(h).kind == 1 then TakeSlot(s, h, op.mode, op.p) else s
    requires u.freeDescs != [] ==> u.freePtrs != []
    ensures Perform(s, op) == Finish(u, op.p, h, op.mode)
  {
    ListedInRange(s, h);
    assert 0 <= s.R(h).kind <= 1;
    hide Inv, TakeSlot, Finish;
  }

  lemma OpenServes(s: State, op: Op, h: int)
    requires Inv(s) && CanStep(s, op) && op.OpenOp? && op.mode != 1 && h == ById(s, s.listed, op.id)
    requires Obstacle(s, h, op.kind, op.mode) == 0
    ensures var u := if s.R(h).kind == 1 then TakeSlot(s, h, op.mode, op.p) else s;
            Served(s, u, Step(s, op), Perform(s, op).ret, h, op)
  {
    ListedInRange(s, h);
    assert PoolsOk(s) && 0 <= s.R(h).kind <= 1;
    TakeGives(s, h, op.mode, op.p);
    var u := if s.R(h).kind == 1 then TakeSlot(s, h, op.mode, op.p) else s;
    hide Inv, CanStep, Perform, TakeSlot, SlotGiven, Finish, Attached, PoolsOk, Elsewhere;
    GivenElsewhere(s, u, h, op.mode, op.p);
    SelfElsewhere(s);
    SamePools(s, u);
    ElsewherePools(s, u);
    CallerInRange(s, op);
    FinishServes(u, op.p, h, op.mode);
    OpenIsFinish(s, op, h, u);
  }

  lemma CallerInRange(s: State, op: Op)
    requires CanStep(s, op) && op.OpenOp?
    ensures 0 <= op.p < |s.holders|
  {
  }

  lemma GivenElsewhere(s: State, u: State, h: int, mode: int, p: int)
    ensures SlotGiven(s, u, h, mode, p) ==> Elsewhere(s, u)
  {
  }

  lemma SelfElsewhere(s: State)
    ensures Elsewhere(s, s)
  {
  }

  lemma OpenFails(s: State, op: Op, h: int)
    requires Inv(s) && CanStep(s, op) && op.OpenOp? && h == ById(s, s.listed, op.id)
    requires Obstacle(s, h, op.kind, op.mode) != 0
    ensures Step(s, op) == s && Perform(s, op).ret == Value(Obstacle(s, h, op.kind, op.mode))
  {
    if h != NULL {
      ListedInRange(s, h);
      assert 0 <= s.R(h).kind <= 1;
    }
    hide Inv, NewResource, TakeSlot, Finish;
  }

  /** What open answers: the error that its caller could predict, without any effect; else -11 if no descriptor is
      left, and otherwise the fd of a new descriptor of the caller for the resource with this id. */
  lemma OpenAnswers(s: State, op: Op, h: int)
    requires Inv(s) && CanStep(s, op) && op.OpenOp? && Resolves(s, op.id, h)
    ensures var t, ret, e := Step(s, op), Perform(s, op).ret, Obstacle(s, h, op.kind, op.mode);
            if e != 0 then t == s && ret == Value(e) else exists u, k :: Served(s, u, t, ret, k, op)
  {
    Lookup(s, op.id, h);
    hide Inv, CanStep, Step, Perform, Served, NewResource, TakeSlot, Resolves;
    if Obstacle(s, h, op.kind, op.mode) != 0 {
      OpenFails(s, op, h);
    } else if op.mode == 1 {
      ByIdRange(s, op.id);
      CreateServes(s, op);
    } else {
      OpenServes(s, op, h);
    }
  }

  lemma ByIdRange(s: State, id: int)
    requires Inv(s)
    ensures ById(s, s.listed, id) >= -1
  {
    if ById(s, s.listed, id) != NULL { ListedInRange(s, ById(s, s.listed, id)); }
  }

  /** Fds count from 0. */
  ghost predicate Counted(s: State) {
    forall p :: s.H(p).lastFd >= 0
  }

  ghost predicate Gained(s: State, t: State, p: int, d: int) {
    d in t.H(p).descs && d !in s.H(p).descs
  }

  lemma ReadyNames(s: State, u: State, k: int, op: Op)
    requires op.OpenOp? && Ready(s, u, k, op.p, op.id, op.kind, op.mode)
    ensures Named(u, k, op.id) && u.H(op.p) == s.H(op.p) && u.freeDescs == s.freeDescs
  {
  }

  lemma AttachedGains(u: State, t: State, p: int, h: int, mode: int, id: int)
    requires Attached(u, t, p, h, mode) && Named(u, h, id) && u.freeDescs[0] !in u.H(p).descs
    ensures var d := u.freeDescs[0];
            Gained(u, t, p, d) && Holds(t, p, d, u.H(p).lastFd) && t.D(d).res == h && Named(t, h, id)
    ensures forall d :: Gained(u, t, p, d) ==> d == u.freeDescs[0]
  {
  }

  /** An open answers 0 or more if and only if its caller holds a new descriptor; that descriptor is found by the
      answer and names a resource with the id. */
  lemma OpenTakesEffect(s: State, op: Op)
    requires Inv(s) && Counted(s) && CanStep(s, op) && op.OpenOp?
    ensures var t, ret := Step(s, op), Perform(s, op).ret;
            && ret.Value?
            && (ret.v >= 0 <==> exists d :: Gained(s, t, op.p, d))
            && forall d :: Gained(s, t, op.p, d) ==> Holds(t, op.p, d, ret.v) && Named(t, t.D(d).res, op.id)
  {
    var t, ret, h := Step(s, op), Perform(s, op).ret, ById(s, s.listed, op.id);
    Lookup(s, op.id, h);
    OpenAnswers(s, op, h);
    assert s.H(op.p).lastFd >= 0;
    hide Inv, CanStep, Step, Perform, Resolves, Ready, Attached, Counted, Gained, Holds, Named;
    if Obstacle(s, h, op.kind, op.mode) == 0 {
      var u, k :| Served(s, u, t, ret, k, op);
      ReadyNames(s, u, k, op);
      if s.freeDescs == [] {
        SameGainsNothing(s, t, op.p);
      } else {
        FreeNotHeld(s, op.p);
        AttachedGains(u, t, op.p, k, op.mode, op.id);
        SameGained(s, u, t, op.p);
      }
    } else {
      SameGainsNothing(s, t, op.p);
    }
  }

  lemma FreeNotHeld(s: State, p: int)
    requires DescInv(s) && s.freeDescs != []
    ensures s.freeDescs[0] !in s.H(p).descs
  {
    assert s.freeDescs[0] in s.freeDescs;
    assert s.freeDescs[0] in s.H(p).descs ==> Held(s, p, s.freeDescs[0]);
  }

  lemma SameGainsNothing(s: State, t: State, p: int)
    requires t.H(p) == s.H(p)
    ensures forall d :: !Gained(s, t, p, d)
  {
  }

  lemma SameGained(s: State, u: State, t: State, p: int)
    requires u.H(p) == s.H(p)
    ensures forall d :: Gained(s, t, p, d) <==> Gained(u, t, p, d)
  {
  }

  // ---------- close ----------

  /** Mode 2 clears the reader slot of a queue, mode 3 the writer slot. */
  ghost predicate SlotCleared(s: State, u: State, h: int, mode: int) {
    && u.R(h) == s.R(h).(reader := u.R(h).reader, writer := u.R(h).writer)
    && u.R(h).reader == (if s.R(h).kind == 1 && mode == 2 then -1 else s.R(h).reader)
    && u.R(h).writer == (if s.R(h).kind == 1 && mode == 3 then -1 else s.R(h).writer)
    && (forall k :: k != h ==> u.R(k) == s.R(k))
    && u.listed == s.listed && u.freeMq == s.freeMq && u.freeStd == s.freeStd && Elsewhere(s, u)
  }

  /** The descriptor is gone from its process and its resource, and both blocks are free. */
  ghost predicate Detached(u: State, t: State, p: int, h: int, d: int) {
    Unlinked(u, t, p, h, d) && t.msgs == u.msgs && t.freeMsgs == u.freeMsgs && t.lost == u.lost
  }

  lemma ClearClears(s: State, h: int, mode: int)
    requires 0 <= h < |s.res| && s.R(h).kind == 1
    ensures SlotCleared(s, s.SetR(h, ClearSlot(s.R(h), mode)), h, mode)
  {
  }

  lemma SelfCleared(s: State, h: int, mode: int)
    requires s.R(h).kind != 1
    ensures SlotCleared(s, s, h, mode)
  {
  }

  lemma UnlinkDetaches(s: State, p: int, d: int)
    requires Inv(s) && 0 <= p < |s.holders| && d in s.H(p).descs
    ensures Detached(s, Unlink(s, p, d), p, s.D(d).res, d)
  {
    UnlinkUnlinks(s, p, d);
    UnlinkSameMessages(s, p, d);
    hide Unlinked, Inv;
  }

  lemma CloseDetaches(s: State, op: Op, d: int) returns (u: State)
    requires Inv(s) && CanStep(s, op) && op.CloseOp? && d == ByFd(s, s.H(op.p).descs, op.fd) && d != NULL
    ensures SlotCleared(s, u, s.D(d).res, op.mode) && Detached(u, Step(s, op), op.p, s.D(d).res, d)
    ensures Perform(s, op).ret == Value(0)
  {
    var h := s.D(d).res;
    assert Held(s, op.p, d);
    ListedInRange(s, h);
    assert 0 <= s.R(h).kind <= 1;
    u := if s.R(h).kind == STANDARD_RESOURCE_TYPE then s else s.SetR(h, ClearSlot(s.R(h), op.mode));
    hide Inv, Unlink, ClearSlot, SlotCleared, Detached;
    if s.R(h).kind == STANDARD_RESOURCE_TYPE {
      SelfCleared(s, h, op.mode);
    } else {
      ClearClears(s, h, op.mode);
      SlotsKeep(s, h, ClearSlot(s.R(h), op.mode)) by { SlotsOnly(s.R(h), op.mode); }
    }
    UnlinkDetaches(u, op.p, d);
  }

  lemma SlotsOnly(r: Resource, mode: int)
    ensures var q := ClearSlot(r, mode); q == r.(reader := q.reader, writer := q.writer)
  {
  }

  ghost predicate Closed(s: State, u: State, t: State, op: Op, d: int)
    requires op.CloseOp?
  {
    SlotCleared(s, u, s.D(d).res, op.mode) && Detached(u, t, op.p, s.D(d).res, d)
  }

  /** What close answers: -12 without any effect if the caller has no such fd, else 0; then the slot that it names is
      cleared and the descriptor is gone. */
  lemma CloseAnswers(s: State, op: Op, d: int)
    requires Inv(s) && CanStep(s, op) && op.CloseOp? && ResolvesFd(s, op.p, op.fd, d)
    ensures var t, ret := Step(s, op), Perform(s, op).ret;
            if d == -1 then t == s && ret == Value(-12)
            else ret == Value(0) && (exists u :: Closed(s, u, t, op, d))
  {
    LookupFd(s, op.p, op.fd, d);
    hide Inv, CanStep, Step, Perform, SlotCleared, Detached, Unlink, ResolvesFd, Holds;
    if d == -1 {
      CloseFails(s, op);
    } else {
      var u := CloseDetaches(s, op, d);
      assert Closed(s, u, Step(s, op), op, d);
    }
  }

  lemma ClosedFd(s: State, u: State, t: State, op: Op, d: int)
    requires Inv(s) && op.CloseOp? && Closed(s, u, t, op, d) && Holds(s, op.p, d, op.fd)
    ensures HasFd(s, op.p, op.fd) && !HasFd(t, op.p, op.fd)
  {
    assert Distinct(s.H(op.p).descs) && HoldersOk(s);
    RemoveMembers(s.H(op.p).descs, d);
    assert t.H(op.p).descs == Remove(s.H(op.p).descs, d) && forall e :: t.D(e) == s.D(e);
    hide Inv, Remove;
    forall e ensures !Holds(t, op.p, e, op.fd) {
      assert e in s.H(op.p).descs && s.D(e).fd == s.D(d).fd ==> e == d;
    }
  }

  lemma CloseFails(s: State, op: Op)
    requires CanStep(s, op) && op.CloseOp? && ByFd(s, s.H(op.p).descs, op.fd) == NULL
    ensures Step(s, op) == s && Perform(s, op).ret == Value(-12)
  {
  }

  // ---------- destroy ----------

  lemma DestroyFails(s: State, op: Op, h: int)
    requires Inv(s) && CanStep(s, op) && op.DestroyOp? && h == ById(s, s.listed, op.id)
    requires h == NULL || s.R(h).ptrs != []
    ensures Step(s, op) == s && Perform(s, op).ret == Value(if h == NULL then -12 else -13)
  {
    hide Inv, DropAll;
  }

  lemma DestroySucceeds(s: State, op: Op, h: int)
    requires Inv(s) && CanStep(s, op) && op.DestroyOp? && h == ById(s, s.listed, op.id)
    requires h != NULL && s.R(h).ptrs == []
    ensures Step(s, op) == Destroyed(s, h) && Perform(s, op).ret == Value(0)
  {
    DestroyIs(s, op.id);
    hide Inv, DropAll, Destroyed;
  }

  /** What destroy answers: -12 if there is no such resource and -13 if it is open, without any effect; else 0, and
      the resource is gone, its messages with it, their blocks with links if there were two or more. */
  lemma DestroyAnswers(s: State, op: Op, h: int)
    requires Inv(s) && CanStep(s, op) && op.DestroyOp? && Resolves(s, op.id, h)
    ensures var t, ret := Step(s, op), Perform(s, op).ret;
            if h == -1 then t == s && ret == Value(-12)
            else if s.R(h).ptrs != [] then t == s && ret == Value(-13)
            else ret == Value(0) && Unlisted(s, t, h) && Emptied(s, t, h, |s.R(h).msgs| >= 2)
  {
    Lookup(s, op.id, h);
    hide Inv, CanStep, Step, Perform, Resolves, Destroyed, Unlisted, Emptied;
    if h == -1 || s.R(h).ptrs != [] {
      DestroyFails(s, op, h);
    } else {
      DestroySucceeds(s, op, h);
      DestroyedKeeps(s, h);
    }
  }

  /** A destroy succeeds if and only if it takes the last resource with the id away. */
  lemma DestroyLists(s: State, op: Op, h: int)
    requires Inv(s) && CanStep(s, op) && op.DestroyOp? && h == ById(s, s.listed, op.id)
    ensures var t, ret := Step(s, op), Perform(s, op).ret;
            && ret.Value? && (ret.v >= 0 <==> Exists(s, op.id) && !Exists(t, op.id)) && (ret.v < 0 ==> t == s)
  {
    Lookup(s, op.id, h);
    DestroyAnswers(s, op, h);
    hide Inv, CanStep, Step, Perform, Unlisted, Emptied;
    if Perform(s, op).ret == Value(0) {
      UnlistedName(s, Step(s, op), op.id, h);
    }
  }

  lemma UnlistedName(s: State, t: State, id: int, h: int)
    requires Inv(s) && Unlisted(s, t, h) && Named(s, h, id)
    ensures !Exists(t, id)
  {
    assert HandlesOk(s);
    RemoveMembers(s.listed, h);
    hide Inv, Remove;
    forall k ensures !Named(t, k, id) {
      assert k in t.listed ==> k in s.listed && k != h && t.R(k) == s.R(k);
    }
  }

  // ---------- messages ----------

  /** The queue of descriptor d, or the error that reading or writing through it gives. */
  ghost predicate Target(s: State, d: int, q: int) {
    if d == -1 then q == -20
    else if s.R(s.D(d).res).kind != 1 then q == -15
    else q == s.D(d).res && q >= 0
  }

  lemma HeldTarget(s: State, p: int, d: int, fd: int)
    requires Inv(s) && Holds(s, p, d, fd)
    ensures ResolvesFd(s, p, fd, d)
    ensures s.R(s.D(d).res).kind == 1 ==> Target(s, d, s.D(d).res) && s.D(d).res >= 0
  {
    LookupFd(s, p, fd, d);
    if s.D(d).res in s.listed { ListedInRange(s, s.D(d).res); }
    hide Inv;
  }

  lemma QueueIsTarget(s: State, p: int, fd: int, d: int, q: int)
    requires Inv(s) && ResolvesFd(s, p, fd, d) && Target(s, d, q)
    ensures q == QueueOf(s, p, fd)
    ensures q >= 0 ==> q in s.listed && s.R(q).kind == 1 && |s.R(q).msgs| <= 128
  {
    LookupFd(s, p, fd, d);
    if q >= 0 { QueueListed(s, p, fd); }
    assert forall h :: |s.R(h).msgs| <= M_FOR_MQ by { assert QueuesOk(s); }
    hide Inv;
  }

  lemma WriteFails(s: State, op: Op, q: int)
    requires CanStep(s, op) && op.WriteOp? && q == QueueOf(s, op.p, op.fd)
    requires !(0 <= op.length <= 128) || q < 0 || |s.R(q).msgs| == 128
    ensures Step(s, op) == s
    ensures Perform(s, op).ret == if !(0 <= op.length <= 128) then Value(-17) else if q < 0 then Value(q) else Unchanged
  {
    hide QueueOf, Put;
  }

  lemma WriteSucceeds(s: State, op: Op, q: int)
    requires Inv(s) && CanStep(s, op) && op.WriteOp? && q == QueueOf(s, op.p, op.fd)
    requires 0 <= op.length <= 128 && q >= 0 && |s.R(q).msgs| != 128
    ensures s.freeMsgs != [] && op.length <= |op.buffer|
    ensures Step(s, op) == Put(s, q, op.buffer[..op.length]) && Perform(s, op).ret == Value(op.length)
    ensures q in s.listed && s.R(q).kind == 1
  {
    QueueListed(s, op.p, op.fd);
    hide QueueOf, Put, Inv;
  }

  /** What write answers: -17 to a length outside 0 to 128, the error of its descriptor, nothing to a queue with 128
      messages, each without any effect; else the length, and the first free block holds the characters and is at the
      end of the queue, or is lost if it has links. */
  lemma WriteAnswers(s: State, op: Op, d: int, q: int)
    requires Inv(s) && CanStep(s, op) && op.WriteOp? && ResolvesFd(s, op.p, op.fd, d) && Target(s, d, q)
    ensures var t, ret := Step(s, op), Perform(s, op).ret;
            if !(0 <= op.length <= 128) then t == s && ret == Value(-17)
            else if q < 0 then t == s && ret == Value(q)
            else if |s.R(q).msgs| == 128 then t == s && ret == Unchanged
            else
              && ret == Value(op.length) && s.freeMsgs != [] && op.length <= |op.buffer| && SameTables(s, t)
              && var b, text := s.freeMsgs[0], op.buffer[..op.length];
                 if s.M(b).stale then Lost(s, t, b, text) && t.M(b).text == text else Enqueued(s, t, q, b, text)
  {
    QueueIsTarget(s, op.p, op.fd, d, q);
    hide Inv, CanStep, Step, Perform, QueueOf, ResolvesFd, Target, Lost, Enqueued, Put;
    if !(0 <= op.length <= 128) || q < 0 || |s.R(q).msgs| == 128 {
      WriteFails(s, op, q);
    } else {
      WriteSucceeds(s, op, q);
      PutRest(s, q, op.buffer[..op.length]);
      PutKeeps(s, q, op.buffer[..op.length]);
    }
  }

  lemma PutRest(s: State, h: int, text: seq<char>)
    requires Inv(s) && s.freeMsgs != []
    ensures Put(s, h, text).M(s.freeMsgs[0]).text == text && SameTables(s, Put(s, h, text))
  {
    assert s.freeMsgs[0] in s.freeMsgs;
  }

  lemma ReadFails(s: State, op: Op, q: int)
    requires CanStep(s, op) && op.ReadOp? && q == QueueOf(s, op.p, op.fd)
    requires q < 0 || s.R(q).msgs == [] || |s.M(s.R(q).msgs[0]).text| > op.length
    ensures Step(s, op) == s && Perform(s, op).data == []
    ensures Perform(s, op).ret == Value(if q < 0 then q
                                        else if s.R(q).msgs != [] then -17
                                        else if s.R(q).writer != -1 then -22 else -19)
  {
    hide QueueOf, Drop;
  }

  lemma ReadSucceeds(s: State, op: Op, q: int)
    requires Inv(s) && CanStep(s, op) && op.ReadOp? && q == QueueOf(s, op.p, op.fd)
    requires q >= 0 && s.R(q).msgs != [] && |s.M(s.R(q).msgs[0]).text| <= op.length
    ensures Step(s, op) == Drop(s, q, false) && q in s.listed && s.R(q).kind == 1
    ensures Perform(s, op).data == s.M(s.R(q).msgs[0]).text && Perform(s, op).ret == Value(|Perform(s, op).data|)
  {
    QueueListed(s, op.p, op.fd);
    hide QueueOf, Drop, Inv;
  }

  /** What read answers: the error of its descriptor, -22 or -19 for an empty queue with or without a writer, -17 if the
      first message does not fit, each without any effect; else the length of the first message, which it hands over,
      and the block of the message is the first free one, without links. */
  lemma ReadAnswers(s: State, op: Op, d: int, q: int)
    requires Inv(s) && CanStep(s, op) && op.ReadOp? && ResolvesFd(s, op.p, op.fd, d) && Target(s, d, q)
    ensures var t, ret, data := Step(s, op), Perform(s, op).ret, Perform(s, op).data;
            if q < 0 then t == s && ret == Value(q)
            else if s.R(q).msgs == [] then t == s && ret == Value(if s.R(q).writer != -1 then -22 else -19)
            else
              var b := s.R(q).msgs[0];
              if |s.M(b).text| > op.length then t == s && ret == Value(-17)
              else data == s.M(b).text && ret == Value(|data|) && Dequeued(s, t, q, b, false) && SameTables(s, t)
  {
    QueueIsTarget(s, op.p, op.fd, d, q);
    hide Inv, CanStep, Step, Perform, QueueOf, ResolvesFd, Target, Dequeued, Drop;
    if q < 0 || s.R(q).msgs == [] || |s.M(s.R(q).msgs[0]).text| > op.length {
      ReadFails(s, op, q);
    } else {
      ReadSucceeds(s, op, q);
      DropKeeps(s, q);
      DropRest(s, q);
    }
  }

  lemma DropRest(s: State, h: int)
    requires s.R(h).msgs != []
    ensures SameTables(s, Drop(s, h, false))
  {
  }

  lemma SameTarget(s: State, t: State, p: int, fd: int, d: int, q: int, k: int, b: int, text: seq<char>)
    requires SameTables(s, t) && Enqueued(s, t, k, b, text)
    ensures ResolvesFd(s, p, fd, d) ==> ResolvesFd(t, p, fd, d)
    ensures Target(s, d, q) ==> Target(t, d, q)
  {
    assert t.H(p) == s.H(p) && forall e :: t.D(e) == s.D(e);
    assert forall e :: Holds(t, p, e, fd) <==> Holds(s, p, e, fd);
    assert forall h :: t.R(h).kind == s.R(h).kind;
  }

  /** Round trip: a message of up to 128 characters that is written to an empty queue, into a block without links, is
      read back whole through any fd of the queue by a buffer that holds it, and both calls answer its length. */
  lemma WriteThenRead(s: State, write: Op, d: int, read: Op, e: int, q: int)
    requires Inv(s) && CanStep(s, write) && write.WriteOp? && read.ReadOp? && IsProc(s, read.p)
    requires ResolvesFd(s, write.p, write.fd, d) && Target(s, d, q) && q >= 0 && s.R(q).msgs == []
    requires ResolvesFd(s, read.p, read.fd, e) && Target(s, e, q)
    requires 0 <= write.length <= 128 && write.length <= read.length
    requires s.freeMsgs != [] ==> !s.M(s.freeMsgs[0]).stale
    ensures var t := Step(s, write);
            && Perform(s, write).ret == Value(write.length) && CanStep(t, read) && write.length <= |write.buffer|
            && Perform(t, read).data == write.buffer[..write.length] && Perform(t, read).ret == Value(write.length)
            && Step(t, read).R(q).msgs == []
  {
    var t := Step(s, write);
    WriteAnswers(s, write, d, q);
    StepKeepsInv(s, write);
    var b, text := s.freeMsgs[0], write.buffer[..write.length];
    SameTarget(s, t, read.p, read.fd, e, q, q, b, text);
    assert CanStep(t, read);
    hide Inv, Step, Perform, CanStep, ResolvesFd, Target, NoLeak;
    ReadAnswers(t, read, e, q);
  }

  // ---------- the release at exit and the re-initialisation at birth ----------

  /** Every descriptor of p is gone from p and from its resource and is free; nothing else changes. */
  ghost predicate Released(s: State, t: State, p: int) {
    && t.H(p) == Holder(s.H(p).lastFd, []) && (forall q :: q != p ==> t.H(q) == s.H(q))
    && (forall h :: t.R(h) == s.R(h).(ptrs := t.R(h).ptrs))
    && (forall h, x {:trigger x in t.R(h).ptrs} {:trigger x in s.R(h).ptrs} ::
          x in t.R(h).ptrs <==> x in s.R(h).ptrs && x !in s.H(p).descs)
    && (forall d :: d in t.freeDescs <==> d in s.freeDescs || d in s.H(p).descs)
    && t.freePtrs == t.freeDescs && t.descs == s.descs && t.backs == s.backs
    && t.listed == s.listed && t.freeStd == s.freeStd && t.freeMq == s.freeMq
    && t.msgs == s.msgs && t.freeMsgs == s.freeMsgs && t.lost == s.lost
  }

  lemma ReleasedNone(s: State, p: int)
    requires s.H(p).descs == [] && PoolsOk(s)
    ensures Released(s, s, p)
  {
  }

  lemma ReleasedMore(s: State, u: State, t: State, p: int, h: int, d: int)
    requires Inv(s) && Detached(s, u, p, h, d) && Released(u, t, p) && h == s.D(d).res
    ensures Released(s, t, p)
  {
    UnlinkedMembers(s, u, p, h, d);
    assert forall x :: x in s.H(p).descs <==> x in u.H(p).descs || x == d;
    hide Inv, Remove;
    forall k, x ensures x in t.R(k).ptrs <==> x in s.R(k).ptrs && x !in s.H(p).descs {
      assert x in t.R(k).ptrs <==> x in u.R(k).ptrs && x !in u.H(p).descs;
      assert x in u.R(k).ptrs <==> x in s.R(k).ptrs && x != d;
      assert d in s.H(p).descs;
    }
  }

  lemma {:induction false} ReleaseReleases(s: State, p: int)
    requires Inv(s) && 0 <= p < |s.holders|
    ensures Released(s, Release(s, p), p)
    decreases |s.H(p).descs|
  {
    if s.H(p).descs == [] {
      ReleaseNone(s, p);
      ReleasedNone(s, p);
    } else {
      var d := s.H(p).descs[0];
      hide Inv, Unlink, Release, Released, Detached;
      UnlinkKeeps(s, p, d);
      UnlinkedSizes(s, p, d);
      UnlinkDetaches(s, p, d);
      ReleaseOne(s, p);
      ReleaseReleases(Unlink(s, p, d), p);
      ReleasedMore(s, Unlink(s, p, d), Release(s, p), p, s.D(d).res, d);
    }
  }

  // ---------- fds ----------

  lemma OpenCounted(s: State, op: Op)
    requires Inv(s) && CanStep(s, op) && op.OpenOp? && Counted(s)
    ensures Counted(Step(s, op))
  {
    var h, t := ById(s, s.listed, op.id), Step(s, op);
    Lookup(s, op.id, h);
    OpenAnswers(s, op, h);
    hide Inv, CanStep, Step, Perform, Resolves, Created, SlotGiven;
    if Obstacle(s, h, op.kind, op.mode) == 0 {
      var u, k :| Served(s, u, t, Perform(s, op).ret, k, op);
      ReadyCounted(s, u, k, op);
      assert forall p :: t.H(p).lastFd >= u.H(p).lastFd;
    }
  }

  lemma ReadyCounted(s: State, u: State, k: int, op: Op)
    requires op.OpenOp? && Ready(s, u, k, op.p, op.id, op.kind, op.mode) && Counted(s)
    ensures Counted(u)
  {
    assert u.holders == s.holders;
    SameCounted(s, u);
  }

  lemma CloseCounted(s: State, op: Op)
    requires Inv(s) && CanStep(s, op) && op.CloseOp? && Counted(s)
    ensures Counted(Step(s, op))
  {
    var d := ByFd(s, s.H(op.p).descs, op.fd);
    LookupFd(s, op.p, op.fd, d);
    CloseAnswers(s, op, d);
    hide Inv, CanStep, Step, Perform, ResolvesFd, Closed, Counted;
    if d != -1 {
      var u :| Closed(s, u, Step(s, op), op, d);
      ClosedCounted(s, u, Step(s, op), op, d);
    }
  }

  lemma ClosedCounted(s: State, u: State, t: State, op: Op, d: int)
    requires op.CloseOp? && Closed(s, u, t, op, d) && Counted(s)
    ensures Counted(t)
  {
    SameCounted(s, u);
    assert forall p :: t.H(p).lastFd == u.H(p).lastFd;
  }

  lemma SameCounted(s: State, t: State)
    requires Counted(s) && t.holders == s.holders
    ensures Counted(t)
  {
    assert forall p :: t.H(p) == s.H(p);
  }

  lemma QueueCounted(s: State, op: Op)
    requires Inv(s) && CanStep(s, op) && (op.DestroyOp? || op.WriteOp? || op.ReadOp?)
    ensures Step(s, op).holders == s.holders
  {
    if op.DestroyOp? {
      Lookup(s, op.id, ById(s, s.listed, op.id));
      DestroyAnswers(s, op, ById(s, s.listed, op.id));
      hide Inv, CanStep, Step, Perform, Resolves, Emptied;
    } else {
      hide Inv, QueueOf;
    }
  }

  lemma StepCounted(s: State, op: Op)
    requires Inv(s) && CanStep(s, op) && Counted(s)
    ensures Counted(Step(s, op))
  {
    if op.ReleaseOp? {
      ReleaseReleases(s, op.p);
      hide Inv, Release;
    } else if op.ResetOp? {
      hide Inv;
    } else {
      hide Inv, CanStep, Step, Counted;
      if op.OpenOp? {
        OpenCounted(s, op);
      } else if op.CloseOp? {
        CloseCounted(s, op);
      } else {
        QueueCounted(s, op);
        SameCounted(s, Step(s, op));
      }
    }
  }

  /** From the start, fds count from 0 in every run. */
  lemma {:induction false} RunCounted(s: State, ops: seq<Op>)
    requires Inv(s) && ValidRun(s, ops) && Counted(s)
    ensures Counted(After(s, ops))
    decreases |ops|
  {
    if ops != [] {
      hide Inv, CanStep, Step, Counted;
      StepKeepsInv(s, ops[0]);
      StepCounted(s, ops[0]);
      RunCounted(Step(s, ops[0]), ops[1..]);
    }
  }

  lemma BootCounted(standard: nat, queues: nat, descriptors: nat, processes: nat, messages: nat)
    ensures Counted(Boot(standard, queues, descriptors, processes, messages))
  {
  }

  // ---------- which calls are possible ----------

  /** An open leads the code to a null pointer only when it creates: a resource of an unknown kind, or one whose pool is
      empty. */
  lemma OpenPossible(s: State, op: Op)
    requires Inv(s) && op.OpenOp? && 0 <= op.p < |s.holders|
    ensures CanStep(s, op) <==>
              (op.mode == 1 && !Exists(s, op.id) ==>
                 (op.kind == 0 && s.freeStd != []) || (op.kind == 1 && s.freeMq != []))
  {
    Lookup(s, op.id, ById(s, s.listed, op.id));
    assert PoolsOk(s);
    hide MsgInv, DescInv, Exists;
  }

  /** A write does so only when it would enqueue: with no message block left, or a buffer shorter than it says. */
  lemma WritePossible(s: State, op: Op, d: int, q: int)
    requires Inv(s) && op.WriteOp? && 0 <= op.p < |s.holders| && ResolvesFd(s, op.p, op.fd, d) && Target(s, d, q)
    ensures CanStep(s, op) <==>
              (0 <= op.length <= 128 && q >= 0 && |s.R(q).msgs| < 128 ==>
                 s.freeMsgs != [] && op.length <= |op.buffer|)
  {
    QueueIsTarget(s, op.p, op.fd, d, q);
    hide Inv, QueueOf, ResolvesFd, Target;
  }
}
