/** The reader and writer slots of a message queue against the descriptors that are open on it. */
module Exclusivity {
  import opened Sequences
  import opened ResourceModel
  import opened Messages
  import opened Descriptors
  import opened ResourceSteps

  /** The entries of a resource whose descriptors were opened in this mode. */
  function With(s: State, ptrs: seq<int>, mode: int): (r: seq<int>)
    ensures forall x :: x in r <==> x in ptrs && s.D(x).mode == mode
  {
    if ptrs == [] then []
    else (if s.D(ptrs[0]).mode == mode then [ptrs[0]] else []) + With(s, ptrs[1..], mode)
  }

  function SlotOf(r: Resource, mode: int): int {
    if mode == DSOS_READ then r.reader else r.writer
  }

  /** The slot is null and nothing is open in this mode, or it names the process that holds the one
      descriptor that is. */
  ghost predicate SlotOk(s: State, h: int, mode: int) {
    var open, owner := With(s, s.R(h).ptrs, mode), SlotOf(s.R(h), mode);
    if owner == NULL then open == [] else |open| == 1 && s.D(open[0]).proc == owner
  }

  ghost predicate HandleOk(s: State, h: int) {
    if s.R(h).kind == MESSAGE_QUEUE_TYPE then SlotOk(s, h, DSOS_READ) && SlotOk(s, h, DSOS_WRITE)
    else s.R(h).reader == NULL && s.R(h).writer == NULL
  }

  ghost predicate Exclusive(s: State) {
    forall h :: HandleOk(s, h)
  }

  // ---------- filtering ----------

  lemma {:induction false} WithAppended(s: State, t: State, ptrs: seq<int>, d: int, mode: int)
    requires forall x :: x in ptrs ==> t.D(x).mode == s.D(x).mode
    ensures With(t, ptrs + [d], mode) == With(s, ptrs, mode) + (if t.D(d).mode == mode then [d] else [])
  {
    if ptrs == [] {
      assert ptrs + [d] == [d];
    } else {
      assert (ptrs + [d])[1..] == ptrs[1..] + [d];
      WithAppended(s, t, ptrs[1..], d, mode);
    }
  }

  lemma {:induction false} WithSame(s: State, t: State, ptrs: seq<int>, mode: int)
    requires forall x :: x in ptrs ==> t.D(x).mode == s.D(x).mode
    ensures With(t, ptrs, mode) == With(s, ptrs, mode)
  {
    if ptrs != [] {
      WithSame(s, t, ptrs[1..], mode);
    }
  }

  lemma WithHead(s: State, first: int, rest: seq<int>, mode: int)
    ensures With(s, [first] + rest, mode) == if s.D(first).mode == mode then [first] + With(s, rest, mode)
                                             else With(s, rest, mode)
  {
    assert ([first] + rest)[1..] == rest;
  }

  lemma {:induction false} WithRemoved(s: State, ptrs: seq<int>, d: int, mode: int)
    requires d in ptrs
    ensures With(s, Remove(ptrs, d), mode)
            == if s.D(d).mode == mode then Remove(With(s, ptrs, mode), d) else With(s, ptrs, mode)
  {
    hide With, Remove;
    var first, rest := ptrs[0], ptrs[1..];
    assert ptrs == [first] + rest;
    WithHead(s, first, rest, mode);
    if first == d {
      RemoveFirst(first, rest);
      RemoveFirst(first, With(s, rest, mode));
    } else {
      assert d in rest;
      RemoveLater(first, rest, d);
      WithHead(s, first, Remove(rest, d), mode);
      WithRemoved(s, rest, d, mode);
      if s.D(d).mode == mode {
        assert d in With(s, rest, mode);
        RemoveLater(first, With(s, rest, mode), d);
      }
    }
  }

  lemma RemoveFirst(first: int, rest: seq<int>)
    ensures Remove([first] + rest, first) == rest
  {
    IndexIs([first] + rest, 0, first);
  }

  lemma RemoveLater(first: int, rest: seq<int>, x: int)
    requires first != x && x in rest
    ensures Remove([first] + rest, x) == [first] + Remove(rest, x)
  {
    var k := IndexOf(rest, x);
    assert forall i :: 0 <= i < k ==> rest[..k][i] == rest[i];
    IndexIs([first] + rest, k + 1, x);
    hide IndexOf;
    assert RemoveAt([first] + rest, k + 1) == [first] + RemoveAt(rest, k);
  }

  // ---------- steps that leave entries and slots alone ----------

  ghost predicate SameSlot(s: State, t: State, h: int) {
    && t.R(h).ptrs == s.R(h).ptrs && t.R(h).kind == s.R(h).kind
    && t.R(h).reader == s.R(h).reader && t.R(h).writer == s.R(h).writer
    && forall x :: x in s.R(h).ptrs ==> t.D(x) == s.D(x)
  }

  lemma OneSlotSame(s: State, t: State, h: int, mode: int)
    requires SameSlot(s, t, h)
    ensures SlotOk(s, h, mode) <==> SlotOk(t, h, mode)
  {
    WithSame(s, t, s.R(h).ptrs, mode);
    hide With;
    assert With(s, s.R(h).ptrs, mode) != [] ==> With(s, s.R(h).ptrs, mode)[0] in With(s, s.R(h).ptrs, mode);
  }

  lemma SameSlotOk(s: State, t: State, h: int)
    requires SameSlot(s, t, h)
    ensures HandleOk(s, h) <==> HandleOk(t, h)
  {
    hide SlotOk;
    OneSlotSame(s, t, h, DSOS_READ);
    OneSlotSame(s, t, h, DSOS_WRITE);
  }

  lemma SameSlots(s: State, t: State)
    requires Exclusive(s) && forall h :: SameSlot(s, t, h)
    ensures Exclusive(t)
  {
    forall h ensures HandleOk(t, h) {
      assert HandleOk(s, h) && SameSlot(s, t, h);
      SameSlotOk(s, t, h);
    }
  }

  /** All handles but h are as before: the state is exclusive exactly when h is in order. */
  lemma OnlyHandle(s: State, t: State, h: int)
    requires Exclusive(s) && forall k :: k != h ==> SameSlot(s, t, k)
    ensures Exclusive(t) <==> HandleOk(t, h)
  {
    forall k | k != h ensures HandleOk(t, k) {
      assert HandleOk(s, k) && SameSlot(s, t, k);
      SameSlotOk(s, t, k);
    }
  }

  // ---------- open ----------

  lemma NewResourceExclusive(s: State, id: int, kind: int)
    requires DescInv(s) && Exclusive(s) && FreeOf(s, kind) != []
    ensures Exclusive(NewResource(s, id, kind))
  {
    var h, t := FreeOf(s, kind)[0], NewResource(s, id, kind);
    assert HandlesOk(s) && h in FreeOf(s, kind);
    assert h !in s.listed;
    UnlistedIsEmpty(s, h);
    hide DescInv, HandlesOk, Exclusive;
    assert HandleOk(s, h) by { assert Exclusive(s); ExclusiveAt(s, h); }
    OnlyHandle(s, t, h);
    assert t.R(h).ptrs == [] && t.R(h).reader == s.R(h).reader && t.R(h).writer == s.R(h).writer;
  }

  lemma ExclusiveAt(s: State, h: int)
    requires Exclusive(s)
    ensures HandleOk(s, h)
  {
  }

  /** The slot was taken for the descriptor that is now entered, or none was needed. */
  ghost predicate Readied(s: State, t: State, p: int, h: int, mode: int) {
    && (forall k :: k != h ==> t.R(k) == s.R(k)) && t.descs == s.descs
    && t.freeDescs == s.freeDescs
    && t.R(h) == s.R(h).(reader := t.R(h).reader, writer := t.R(h).writer)
    && if s.R(h).kind == MESSAGE_QUEUE_TYPE && (mode == DSOS_READ || mode == DSOS_WRITE) then
         && SlotOf(s.R(h), mode) == NULL && SlotOf(t.R(h), mode) == p && p != NULL
         && SlotOf(t.R(h), DSOS_READ + DSOS_WRITE - mode) == SlotOf(s.R(h), DSOS_READ + DSOS_WRITE - mode)
       else t.R(h) == s.R(h)
  }

  lemma EnteredSlot(s: State, t: State, u: State, p: int, h: int, d: int, mode: int, m: int)
    requires SlotOk(s, h, m) && Readied(s, t, p, h, mode) && Linked(t, u, p, h, d) && u.D(d).mode == mode
    requires s.R(h).kind == MESSAGE_QUEUE_TYPE && (m == DSOS_READ || m == DSOS_WRITE)
    requires d !in s.R(h).ptrs
    ensures SlotOk(u, h, m)
  {
    var ptrs := s.R(h).ptrs;
    assert forall x :: x in ptrs ==> u.D(x) == s.D(x);
    WithAppended(s, u, ptrs, d, m);
    assert u.R(h).ptrs == ptrs + [d];
    assert u.D(d).proc == p;
    if mode == m {
      assert With(s, ptrs, m) == [];
    } else {
      assert With(u, ptrs + [d], m) == With(s, ptrs, m);
      assert forall x :: x in With(s, ptrs, m) ==> u.D(x) == s.D(x);
    }
  }

  lemma EnteredExclusive(s: State, t: State, u: State, p: int, h: int, d: int, mode: int)
    requires Exclusive(s) && Readied(s, t, p, h, mode) && Linked(t, u, p, h, d) && u.D(d).mode == mode
    requires forall k :: d !in s.R(k).ptrs
    ensures Exclusive(u)
  {
    ExclusiveAt(s, h);
    forall k | k != h ensures SameSlot(s, u, k) {
      assert t.R(k) == s.R(k) && u.R(k) == t.R(k);
      assert forall x :: x in s.R(k).ptrs ==> u.D(x) == s.D(x);
    }
    OnlyHandle(s, u, h);
    if s.R(h).kind == MESSAGE_QUEUE_TYPE {
      EnteredSlot(s, t, u, p, h, d, mode, DSOS_READ);
      EnteredSlot(s, t, u, p, h, d, mode, DSOS_WRITE);
    }
    hide Exclusive, SlotOk;
  }

  /** Without a free descriptor a slot that was taken stays taken. */
  lemma StuckSlot(s: State, t: State, p: int, h: int, mode: int)
    requires Exclusive(s) && Readied(s, t, p, h, mode)
    ensures Exclusive(t) <==> t.R(h) == s.R(h)
  {
    ExclusiveAt(s, h);
    OnlyHandle(s, t, h);
    if t.R(h) != s.R(h) {
      WithSame(s, t, s.R(h).ptrs, mode);
    } else {
      assert SameSlot(s, t, h);
      SameSlotOk(s, t, h);
    }
    hide Exclusive;
  }

  lemma FinishExclusive(s: State, t: State, p: int, h: int, mode: int)
    requires DescInv(s) && DescInv(t) && Exclusive(s) && Readied(s, t, p, h, mode)
    requires 0 <= p < |t.holders| && 0 <= h < |t.res| && (t.freeDescs != [] ==> t.freePtrs != [])
    ensures Exclusive(Finish(t, p, h, mode).s) <==> s.freeDescs != [] || t.R(h) == s.R(h)
  {
    if t.freeDescs == [] {
      hide DescInv, Exclusive, Readied;
      assert t.freeDescs == s.freeDescs by { ReadiedPools(s, t, p, h, mode); }
      StuckSlot(s, t, p, h, mode);
    } else {
      var d := t.freeDescs[0];
      LinkLinks(t, p, h, mode);
      FreeNotEntered(s, d);
      ReadiedPools(s, t, p, h, mode);
      assert Link(t, p, h, mode).D(d).mode == mode by { LinkMode(t, p, h, mode); }
      hide DescInv, Exclusive, Readied, Link, Linked;
      EnteredExclusive(s, t, Link(t, p, h, mode), p, h, d, mode);
    }
  }

  lemma ReadiedPools(s: State, t: State, p: int, h: int, mode: int)
    requires Readied(s, t, p, h, mode)
    ensures t.freeDescs == s.freeDescs
  {
  }

  lemma LinkMode(s: State, p: int, h: int, mode: int)
    requires PoolsOk(s) && s.freeDescs != [] && s.freePtrs != []
    ensures Link(s, p, h, mode).D(s.freeDescs[0]).mode == mode
  {
    assert s.freeDescs[0] in s.freeDescs;
  }

  lemma FreeNotEntered(s: State, d: int)
    requires EntriesOk(s) && d in s.freeDescs
    ensures forall k :: d !in s.R(k).ptrs
  {
    forall k ensures d !in s.R(k).ptrs {
      assert d in s.R(k).ptrs ==> InUse(s, d);
    }
  }

  lemma TakeReadies(s: State, p: int, h: int, mode: int)
    requires p != NULL && 0 <= h < |s.res| && !SlotTaken(s.R(h), mode) && s.R(h).kind == MESSAGE_QUEUE_TYPE
    ensures Readied(s, TakeSlot(s, h, mode, p), p, h, mode)
    ensures TakeSlot(s, h, mode, p).R(h) == s.R(h) <==> mode != DSOS_READ && mode != DSOS_WRITE
  {
  }

  lemma OpenExclusive(s: State, op: Op)
    requires Inv(s) && Exclusive(s) && CanStep(s, op) && op.OpenOp?
    ensures Exclusive(Step(s, op)) <==> !(TakesSlot(s, op) && s.freeDescs == [])
  {
    var p, id, kind, mode := op.p, op.id, op.kind, op.mode;
    var h := ById(s, s.listed, id);
    assert DescInv(s);
    hide Inv, DescInv, Exclusive, NewResource, Finish, ById, TakeSlot;
    if mode == DSOS_CREATE {
      if h == NULL {
        OpenNewExclusive(s, p, id, kind);
      }
    } else if h != NULL && s.R(h).kind == kind && !(mode == DSOS_EXCL && s.R(h).ptrs != []) {
      KindOfListed(s, h);
      if kind == STANDARD_RESOURCE_TYPE {
        SelfReadied(s, p, h, mode);
        FinishExclusive(s, s, p, h, mode);
      } else if !SlotTaken(s.R(h), mode) {
        TakeReadies(s, p, h, mode);
        TakenKeeps(s, h, mode, p);
        FinishExclusive(s, TakeSlot(s, h, mode, p), p, h, mode);
      }
    }
  }

  lemma KindOfListed(s: State, h: int)
    requires DescInv(s) && h in s.listed
    ensures 0 <= h < |s.res| && s.freePtrs == s.freeDescs
    ensures s.R(h).kind == STANDARD_RESOURCE_TYPE || s.R(h).kind == MESSAGE_QUEUE_TYPE
  {
  }

  lemma SelfReadied(s: State, p: int, h: int, mode: int)
    requires s.R(h).kind != MESSAGE_QUEUE_TYPE || (mode != DSOS_READ && mode != DSOS_WRITE)
    ensures Readied(s, s, p, h, mode)
  {
  }

  lemma OpenNewExclusive(s: State, p: int, id: int, kind: int)
    requires Inv(s) && Exclusive(s) && 0 <= p < |s.holders| && CanOpen(s, id, kind, DSOS_CREATE)
    requires ById(s, s.listed, id) == NULL
    ensures Exclusive(Open(s, p, id, kind, DSOS_CREATE).s)
  {
    var f, t := FreeOf(s, kind)[0], NewResource(s, id, kind);
    NewResourceKeeps(s, id, kind);
    assert DescInv(s) && DescInv(t);
    hide Inv, DescInv, Exclusive, NewResource, Finish;
    KindOfListed(t, f);
    NewResourceExclusive(s, id, kind);
    SelfReadied(t, p, f, DSOS_CREATE);
    FinishExclusive(t, t, p, f, DSOS_CREATE);
  }

  // ---------- close ----------

  /** What clearing slots for `mode` means for the slot of mode m, when a descriptor that was opened in
      mode `was` is closed. */
  predicate Suits(owner: int, was: int, mode: int, m: int) {
    if was == m then mode == m else mode == m ==> owner == NULL
  }

  /** The slots stay in order when descriptor d is closed in this mode. */
  predicate Matched(s: State, d: int, mode: int) {
    var r, was := s.R(s.D(d).res), s.D(d).mode;
    r.kind == MESSAGE_QUEUE_TYPE ==>
      Suits(r.reader, was, mode, DSOS_READ) && Suits(r.writer, was, mode, DSOS_WRITE)
  }

  /** Descriptor d has left h, whose slots were cleared for `mode`. */
  ghost predicate Left(s: State, t: State, h: int, d: int, mode: int) {
    && t.descs == s.descs && (forall k :: k != h ==> t.R(k) == s.R(k))
    && t.R(h).ptrs == Remove(s.R(h).ptrs, d) && t.R(h).kind == s.R(h).kind
    && t.R(h).reader == (if mode == DSOS_READ && s.R(h).kind == MESSAGE_QUEUE_TYPE then NULL else s.R(h).reader)
    && t.R(h).writer == (if mode == DSOS_WRITE && s.R(h).kind == MESSAGE_QUEUE_TYPE then NULL else s.R(h).writer)
  }

  lemma LeftOpen(s: State, t: State, h: int, d: int, mode: int, m: int)
    requires Left(s, t, h, d, mode) && d in s.R(h).ptrs
    ensures var open, left := With(s, s.R(h).ptrs, m), With(t, t.R(h).ptrs, m);
            if s.D(d).mode == m then d in open && |left| == |open| - 1 else left == open
  {
    WithSame(s, t, t.R(h).ptrs, m);
    WithRemoved(s, s.R(h).ptrs, d, m);
  }

  lemma LeftSlot(s: State, t: State, h: int, d: int, mode: int, m: int)
    requires Left(s, t, h, d, mode) && d in s.R(h).ptrs && SlotOk(s, h, m) && s.R(h).kind == MESSAGE_QUEUE_TYPE
    requires m == DSOS_READ || m == DSOS_WRITE
    ensures SlotOk(t, h, m) <==> Suits(SlotOf(s.R(h), m), s.D(d).mode, mode, m)
  {
    hide With, Remove;
    LeftOpen(s, t, h, d, mode, m);
    assert t.descs == s.descs;
  }

  lemma LeftExclusive(s: State, t: State, h: int, d: int, mode: int)
    requires Exclusive(s) && Left(s, t, h, d, mode) && d in s.R(h).ptrs && s.D(d).res == h
    ensures Exclusive(t) <==> Matched(s, d, mode)
  {
    ExclusiveAt(s, h);
    forall k | k != h ensures SameSlot(s, t, k) {
      assert t.R(k) == s.R(k);
      assert forall x :: t.D(x) == s.D(x);
    }
    OnlyHandle(s, t, h);
    if s.R(h).kind == MESSAGE_QUEUE_TYPE {
      LeftSlot(s, t, h, d, mode, DSOS_READ);
      LeftSlot(s, t, h, d, mode, DSOS_WRITE);
    }
    hide Exclusive, SlotOk, With, Remove;
  }

  lemma UnlinkLeaves(s: State, p: int, d: int)
    requires DescInv(s) && 0 <= p < |s.holders| && d in s.H(p).descs
    ensures Left(s, Unlink(s, p, d), s.D(d).res, d, 0) && d in s.R(s.D(d).res).ptrs
  {
    assert Held(s, p, d);
    UnlinkUnlinks(s, p, d);
    hide DescInv, Unlink, Held;
  }

  /** Closing a descriptor is leaving its resource and clearing the slot that the caller names. */
  lemma CloseLeaves(s: State, p: int, fd: int, mode: int)
    requires Inv(s) && 0 <= p < |s.holders| && ByFd(s, s.H(p).descs, fd) != NULL
    ensures var d := ByFd(s, s.H(p).descs, fd);
            Left(s, Close(s, p, fd, mode).s, s.D(d).res, d, mode) && d in s.R(s.D(d).res).ptrs
  {
    var d := ByFd(s, s.H(p).descs, fd);
    var h := s.D(d).res;
    assert Held(s, p, d);
    assert HandlesOk(s);
    ListedInRange(s, h);
    if s.R(h).kind == STANDARD_RESOURCE_TYPE {
      hide Inv, HandlesOk, Unlink, Remove;
      UnlinkLeaves(s, p, d);
    } else {
      var t := s.SetR(h, ClearSlot(s.R(h), mode));
      SlotsKeep(s, h, ClearSlot(s.R(h), mode));
      assert DescInv(t);
      hide Inv, DescInv, Held, Unlink, Remove;
      UnlinkLeaves(t, p, d);
    }
  }

  lemma CloseExclusive(s: State, op: Op)
    requires Inv(s) && Exclusive(s) && CanStep(s, op) && op.CloseOp?
    ensures var d := ByFd(s, s.H(op.p).descs, op.fd);
            Exclusive(Step(s, op)) <==> d == NULL || Matched(s, d, op.mode)
  {
    var p, mode, d := op.p, op.mode, ByFd(s, s.H(op.p).descs, op.fd);
    if d != NULL {
      hide Inv, Exclusive, Left, Matched, Unlink;
      CloseLeaves(s, p, op.fd, mode);
      LeftExclusive(s, Close(s, p, op.fd, mode).s, s.D(d).res, d, mode);
    }
  }

  // ---------- exit ----------

  /** The descriptor stands for a slot of a message queue. */
  predicate HoldsSlot(s: State, d: int) {
    s.R(s.D(d).res).kind == MESSAGE_QUEUE_TYPE && (s.D(d).mode == DSOS_READ || s.D(d).mode == DSOS_WRITE)
  }

  predicate HoldsNoSlot(s: State, descs: seq<int>) {
    forall d :: d in descs ==> !HoldsSlot(s, d)
  }

  /** The slot names a process although nothing is open in its mode. */
  ghost predicate Abandoned(s: State, h: int, m: int) {
    && s.R(h).kind == MESSAGE_QUEUE_TYPE && (m == DSOS_READ || m == DSOS_WRITE)
    && SlotOf(s.R(h), m) != NULL && With(s, s.R(h).ptrs, m) == []
  }

  lemma AbandonedStays(s: State, t: State, h: int, d: int, mode: int, k: int, m: int)
    requires Left(s, t, h, d, mode) && d in s.R(h).ptrs && Abandoned(s, k, m)
    ensures Abandoned(t, k, m) <==> !(mode == m && h == k)
  {
    LeftOpen(s, t, h, d, mode, m);
    WithSame(s, t, s.R(k).ptrs, m);
    hide With, Remove;
  }

  lemma SlotModes(s: State, h: int, m: int)
    requires Abandoned(s, h, m)
    ensures m != 0 && m != DSOS_CREATE
  {
  }

  lemma {:induction false} AbandonedForGood(s: State, p: int, k: int, m: int)
    requires Inv(s) && 0 <= p < |s.holders| && Abandoned(s, k, m)
    ensures Abandoned(Release(s, p), k, m)
    decreases |s.H(p).descs|
  {
    if s.H(p).descs != [] {
      var d := s.H(p).descs[0];
      assert DescInv(s);
      hide Inv, DescInv, Unlink, Abandoned, Left;
      UnlinkKeeps(s, p, d);
      UnlinkLeaves(s, p, d);
      SlotModes(s, k, m);
      AbandonedStays(s, Unlink(s, p, d), s.D(d).res, d, 0, k, m);
      UnlinkedSizes(s, p, d);
      AbandonedForGood(Unlink(s, p, d), p, k, m);
    }
  }

  lemma LeavesAbandoned(s: State, t: State, h: int, d: int)
    requires Exclusive(s) && Left(s, t, h, d, 0) && d in s.R(h).ptrs && s.D(d).res == h && HoldsSlot(s, d)
    ensures Abandoned(t, h, s.D(d).mode)
  {
    ExclusiveAt(s, h);
    LeftOpen(s, t, h, d, 0, s.D(d).mode);
    hide With, Remove, Exclusive;
  }

  lemma AbandonedNotOk(s: State, h: int, m: int)
    requires Abandoned(s, h, m)
    ensures !Exclusive(s)
  {
    assert !HandleOk(s, h);
  }

  /** Unlinking one descriptor leaves the others of the process, and what they stand for. */
  lemma UnlinkSpares(s: State, p: int, d: int)
    requires DescInv(s) && 0 <= p < |s.holders| && d in s.H(p).descs
    ensures forall e :: e in Unlink(s, p, d).H(p).descs <==> e in s.H(p).descs && e != d
    ensures forall e :: HoldsSlot(Unlink(s, p, d), e) <==> HoldsSlot(s, e)
  {
    UnlinkUnlinks(s, p, d);
    var t, h := Unlink(s, p, d), s.D(d).res;
    UnlinkedMembers(s, t, p, h, d);
    hide DescInv, Unlink;
    assert t.descs == s.descs;
    forall e ensures t.D(e) == s.D(e) && t.R(t.D(e).res).kind == s.R(s.D(e).res).kind {
      assert s.D(e).res != h ==> t.R(s.D(e).res) == s.R(s.D(e).res);
    }
  }

  /** The exit of a process leaves the slots in order exactly when it held none. */
  lemma {:induction false} ReleaseExclusive(s: State, p: int)
    requires Inv(s) && Exclusive(s) && 0 <= p < |s.holders|
    ensures Exclusive(Release(s, p)) <==> HoldsNoSlot(s, s.H(p).descs)
    decreases |s.H(p).descs|
  {
    if s.H(p).descs != [] {
      var d := s.H(p).descs[0];
      var t, h := Unlink(s, p, d), s.D(d).res;
      assert d in s.H(p).descs && DescInv(s);
      hide Inv, DescInv, Unlink, Abandoned, Left, Exclusive, HoldsSlot, Matched, Release;
      ReleaseOne(s, p);
      UnlinkKeeps(s, p, d);
      UnlinkedSizes(s, p, d);
      UnlinkLeaves(s, p, d);
      UnlinkSpares(s, p, d);
      if HoldsSlot(s, d) {
        LeavesAbandoned(s, t, h, d);
        AbandonedForGood(t, p, h, s.D(d).mode);
        AbandonedNotOk(Release(t, p), h, s.D(d).mode);
      } else {
        LeftExclusive(s, t, h, d, 0);
        NoSlotMatches(s, d);
        ReleaseExclusive(t, p);
      }
    }
  }

  lemma NoSlotMatches(s: State, d: int)
    requires !HoldsSlot(s, d)
    ensures Matched(s, d, 0)
  {
  }

  // ---------- calls that leave the slots alone ----------

  lemma OnlyMessages(s: State, t: State)
    requires Exclusive(s) && t.descs == s.descs && forall h :: t.R(h) == s.R(h).(msgs := t.R(h).msgs)
    ensures Exclusive(t)
  {
    forall h ensures SameSlot(s, t, h) {
      assert t.R(h) == s.R(h).(msgs := t.R(h).msgs);
    }
    hide Exclusive;
    SameSlots(s, t);
  }

  lemma WriteExclusive(s: State, p: int, fd: int, buffer: seq<char>, length: int)
    requires Exclusive(s) && CanWrite(s, p, fd, buffer, length)
    ensures Exclusive(Write(s, p, fd, buffer, length).s)
  {
    var t := Write(s, p, fd, buffer, length).s;
    hide Exclusive, QueueOf;
    OnlyMessages(s, t);
  }

  lemma ReadExclusive(s: State, p: int, fd: int, length: int)
    requires Exclusive(s)
    ensures Exclusive(Read(s, p, fd, length).s)
  {
    var t := Read(s, p, fd, length).s;
    hide Exclusive, QueueOf;
    OnlyMessages(s, t);
  }

  lemma UnlistedExclusive(s: State, t: State, h: int)
    requires Exclusive(s) && Unlisted(s, t, h)
    ensures Exclusive(t)
  {
    hide Exclusive, Remove;
    OnlyMessages(s, t);
  }

  lemma DestroyExclusive(s: State, id: int)
    requires Inv(s) && Exclusive(s)
    ensures Exclusive(Destroy(s, id).s)
  {
    var h := ById(s, s.listed, id);
    DestroyIs(s, id);
    if h != NULL && s.R(h).ptrs == [] {
      DestroyedKeeps(s, h);
      hide Inv, Exclusive, Destroy, Destroyed, ById, Emptied, Remove;
      UnlistedExclusive(s, Destroyed(s, h), h);
    }
  }

  // ---------- every step and every run ----------

  /** The discipline that keeps the slots in order. */
  predicate SlotSafe(s: State, op: Op) {
    match op
    case OpenOp(_, _, _, _) => !(TakesSlot(s, op) && s.freeDescs == [])
    case CloseOp(p, fd, mode) => var d := ByFd(s, s.H(p).descs, fd); d == NULL || Matched(s, d, mode)
    case ReleaseOp(p) => HoldsNoSlot(s, s.H(p).descs)
    case _ => true
  }

  lemma StepExclusive(s: State, op: Op)
    requires Inv(s) && Exclusive(s) && CanStep(s, op)
    ensures Exclusive(Step(s, op)) <==> SlotSafe(s, op)
  {
    match op
    case OpenOp(p, id, kind, mode) =>
      hide Inv, Exclusive, Step, TakesSlot;
      OpenExclusive(s, op);
    case CloseOp(p, fd, mode) =>
      hide Inv, Exclusive, Step, Matched;
      CloseExclusive(s, op);
    case ReleaseOp(p) =>
      hide Inv, Exclusive, Release, HoldsNoSlot;
      ReleaseExclusive(s, p);
    case DestroyOp(id) =>
      hide Inv, Exclusive, Destroy;
      DestroyExclusive(s, id);
    case WriteOp(p, fd, buffer, length) =>
      hide Inv, Exclusive, Write;
      WriteExclusive(s, p, fd, buffer, length);
    case ReadOp(p, fd, length) =>
      hide Inv, Exclusive, Read;
      ReadExclusive(s, p, fd, length);
    case ResetOp(p) =>
      hide Inv, Exclusive;
      OnlyMessages(s, Reset(s, p));
  }

  predicate SlotSafeRun(s: State, ops: seq<Op>)
    requires ValidRun(s, ops)
    decreases ops
  {
    ops == [] || (SlotSafe(s, ops[0]) && SlotSafeRun(Step(s, ops[0]), ops[1..]))
  }

  lemma {:induction false} RunExclusive(s: State, ops: seq<Op>)
    requires Inv(s) && Exclusive(s) && ValidRun(s, ops) && SlotSafeRun(s, ops)
    ensures Exclusive(After(s, ops))
    decreases ops
  {
    if ops != [] {
      hide Inv, Exclusive, Step, SlotSafe;
      StepExclusive(s, ops[0]);
      StepKeepsInv(s, ops[0]);
      RunExclusive(Step(s, ops[0]), ops[1..]);
    }
  }

  lemma BootExclusive(standard: nat, queues: nat, descriptors: nat, processes: nat, messages: nat)
    ensures Exclusive(Boot(standard, queues, descriptors, processes, messages))
  {
  }

  /** From the start, under the discipline, the slots agree with the open descriptors. */
  lemma DisciplinedSlots(standard: nat, queues: nat, descriptors: nat, processes: nat, messages: nat, ops: seq<Op>)
    requires ValidRun(Boot(standard, queues, descriptors, processes, messages), ops)
    requires SlotSafeRun(Boot(standard, queues, descriptors, processes, messages), ops)
    ensures Exclusive(After(Boot(standard, queues, descriptors, processes, messages), ops))
  {
    BootInv(standard, queues, descriptors, processes, messages);
    BootExclusive(standard, queues, descriptors, processes, messages);
    hide *;
    RunExclusive(Boot(standard, queues, descriptors, processes, messages), ops);
  }

  // ---------- what the readers see ----------

  /** An empty read tells the reader to wait exactly when the queue is open for writing. */
  lemma WaitsForWriter(s: State, p: int, fd: int, length: int)
    requires Inv(s) && Exclusive(s)
    requires var h := QueueOf(s, p, fd); h >= 0 && s.R(h).msgs == []
    ensures var h, ret := QueueOf(s, p, fd), Read(s, p, fd, length).ret;
            && (ret == Value(DSOS_WAITINGFORMESSAGE) <==>
                  exists d :: d in s.R(h).ptrs && s.D(d).mode == DSOS_WRITE)
            && (ret == Value(DSOS_WAITINGFORMESSAGE) || ret == Value(DSOS_MESSAGEQUEUEEMPTY))
  {
    var h := QueueOf(s, p, fd);
    QueueListed(s, p, fd);
    ExclusiveAt(s, h);
    var open := With(s, s.R(h).ptrs, DSOS_WRITE);
    if open != [] {
      var d := AMember(open);
    }
  }

  /** The process in a slot is the only one with a descriptor of that mode, and it holds it. */
  lemma OneHolder(s: State, h: int, mode: int)
    requires Inv(s) && NoLeak(s) && Exclusive(s) && s.R(h).kind == MESSAGE_QUEUE_TYPE
    requires mode == DSOS_READ || mode == DSOS_WRITE
    ensures forall q, d {:trigger d in s.H(q).descs} ::
              d in s.H(q).descs && s.D(d).res == h && s.D(d).mode == mode ==> q == SlotOf(s.R(h), mode)
    ensures SlotOf(s.R(h), mode) != NULL ==>
              exists d :: d in s.H(SlotOf(s.R(h), mode)).descs && s.D(d).res == h && s.D(d).mode == mode
  {
    ExclusiveAt(s, h);
    var open, owner := With(s, s.R(h).ptrs, mode), SlotOf(s.R(h), mode);
    forall q, d | d in s.H(q).descs && s.D(d).res == h && s.D(d).mode == mode ensures q == owner {
      assert Held(s, q, d);
      assert d in open;
    }
    if owner != NULL {
      var d := AMember(open);
      assert d in s.R(h).ptrs && d in s.H(owner).descs;
      assert Held(s, owner, d);
    }
  }
}
