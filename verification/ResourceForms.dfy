/** How the single updates of the resource kernel add up to the steps of the resource model. */
module ResourceForms {
  import opened Sequences
  import opened ResourceModel
  import opened Messages
  import opened Descriptors
  import opened ResourceSteps
  import MS = MessageStore

  /** The handles of queue blocks follow those of standard resources. */
  ghost function Shift(free: seq<nat>, n: nat): (r: seq<int>)
    ensures |r| == |free| && forall i :: 0 <= i < |r| ==> r[i] == free[i] + n
  {
    seq(|free|, i requires 0 <= i < |free| => free[i] + n)
  }

  lemma ShiftEnds(free: seq<nat>, n: nat, b: nat)
    ensures Shift([b] + free, n) == [b + n] + Shift(free, n)
    ensures free != [] ==> Shift(free[1..], n) == Shift(free, n)[1..]
  {
  }

  lemma ShiftMember(free: seq<nat>, n: nat, b: nat)
    ensures b in free <==> b + n in Shift(free, n)
  {
    if b in free {
      var i :| 0 <= i < |free| && free[i] == b;
      assert Shift(free, n)[i] == b + n;
    }
  }

  /** Handles from `n` on are those of queue blocks. */
  ghost predicate KindsOk(s: State, n: int) {
    forall h :: h in s.listed ==> (s.R(h).kind == MESSAGE_QUEUE_TYPE <==> h >= n)
  }

  /** The queues that are allocated. */
  function LiveIn(s: State): (r: set<int>) {
    set h | h in s.listed && s.R(h).kind == MESSAGE_QUEUE_TYPE
  }

  /** The register after a call: the write to a full queue leaves it alone. */
  function Register(before: int, ret: Ret): int {
    if ret.Value? then ret.v else before
  }

  lemma QueueParts(s: State, p: int, fd: int)
    ensures var d := ByFd(s, s.H(p).descs, fd);
            QueueOf(s, p, fd) == if d == NULL then DSOS_RESOURCENOTFOUND
                                 else if s.R(s.D(d).res).kind != MESSAGE_QUEUE_TYPE then DSOS_ERESOURCETYPEWRONG
                                 else s.D(d).res
    ensures forall h :: h in s.listed && s.R(h).kind == MESSAGE_QUEUE_TYPE ==> h in LiveIn(s)
    ensures DSOS_RESOURCENOTFOUND < 0 && DSOS_ERESOURCETYPEWRONG < 0
  {
  }

  lemma WriteResult(s: State, p: int, fd: int, buffer: seq<char>, length: int)
    requires CanWrite(s, p, fd, buffer, length)
    ensures var h, w := QueueOf(s, p, fd), Write(s, p, fd, buffer, length);
            if !(0 <= length <= MESSAGE_STRING_MAX_LENGTH) then w.s == s && w.ret == Value(DSOS_MESSAGELENGTHNOTVALID)
            else if h < 0 then w.s == s && w.ret == Value(h)
            else if |s.R(h).msgs| == M_FOR_MQ then w.s == s && w.ret == Unchanged
            else
              && s.freeMsgs != [] && length <= |buffer|
              && w.s == Put(s, h, buffer[..length]) && w.ret == Value(length)
    ensures forall before, v :: Register(before, Value(v)) == v
    ensures forall before :: Register(before, Unchanged) == before
  {
  }

  lemma PutForm(s: State, h: int, text: seq<char>)
    requires MsgInv(s) && s.freeMsgs != []
    ensures SameKinds(s, Put(s, h, text))
    ensures var b := s.freeMsgs[0];
            var t := s.SetM(b, s.M(b).(text := text)).(freeMsgs := s.freeMsgs[1..]);
            Put(s, h, text) == if t.M(b).stale then t.(lost := [b] + t.lost)
                               else t.SetR(h, t.R(h).(msgs := t.R(h).msgs + [b]))
  {
  }

  lemma ReadResult(s: State, p: int, fd: int, length: int)
    ensures var h, w := QueueOf(s, p, fd), Read(s, p, fd, length);
            if h < 0 then w.s == s && w.ret == Value(h) && w.data == []
            else if s.R(h).msgs == [] then
              && w.s == s && w.data == []
              && w.ret == Value(if s.R(h).writer != NULL then DSOS_WAITINGFORMESSAGE else DSOS_MESSAGEQUEUEEMPTY)
            else
              var text := s.M(s.R(h).msgs[0]).text;
              if |text| > length then w.s == s && w.ret == Value(DSOS_MESSAGELENGTHNOTVALID) && w.data == []
              else w.s == Drop(s, h, false) && w.ret == Value(|text|) && w.data == text
  {
  }

  lemma DropForm(s: State, h: int)
    requires MsgInv(s) && 0 <= h < |s.res| && s.R(h).msgs != []
    ensures SameKinds(s, Drop(s, h, false))
    ensures var t := s.SetR(h, s.R(h).(msgs := s.R(h).msgs[1..]));
            t.(freeMsgs := [s.R(h).msgs[0]] + t.freeMsgs) == Drop(s, h, false)
  {
    var b := s.R(h).msgs[0];
    assert b in s.R(h).msgs && Queued(s, b);
  }

  lemma ResetForm(s: State, p: int)
    ensures var t := s.SetH(p, s.H(p).(lastFd := 0)); t.SetH(p, t.H(p).(descs := [])) == Reset(s, p)
    ensures SameKinds(s, Reset(s, p))
  {
  }

  lemma DestroyResult(s: State, id: int)
    ensures var h := ById(s, s.listed, id);
            Destroy(s, id).ret == Value(if h == NULL then DSOS_ERESOURCECLOSE
                                        else if s.R(h).ptrs != [] then DSOS_ERESOURCEINUSE else 0)
  {
  }

  lemma DestroyedKinds(s: State, h: int, n: int)
    requires Inv(s) && h in s.listed && s.R(h).ptrs == [] && KindsOk(s, n)
    ensures KindsOk(Destroyed(s, h), n)
    ensures LiveIn(Destroyed(s, h)) == if s.R(h).kind == MESSAGE_QUEUE_TYPE then LiveIn(s) - {h} else LiveIn(s)
  {
    DestroyedKeeps(s, h);
    assert Distinct(s.listed);
    hide Inv, Destroyed, Emptied, Remove;
    UnlistedKinds(s, Destroyed(s, h), h, n);
  }

  lemma UnlistedKinds(s: State, t: State, h: int, n: int)
    requires Distinct(s.listed) && Unlisted(s, t, h) && KindsOk(s, n)
    ensures KindsOk(t, n)
    ensures LiveIn(t) == if s.R(h).kind == MESSAGE_QUEUE_TYPE then LiveIn(s) - {h} else LiveIn(s)
  {
    RemoveMembers(s.listed, h);
    hide Remove, Distinct;
    assert forall k :: t.R(k).kind == s.R(k).kind;
  }

  lemma {:induction false} DropAllForm(s: State, h: int, stale: bool)
    requires MsgInv(s) && 0 <= h < |s.res|
    ensures DropAll(s, h, stale)
            == s.SetR(h, s.R(h).(msgs := []))
                .(freeMsgs := MS.ReleasedAll(s.freeMsgs, s.R(h).msgs), msgs := MS.Marked(s.msgs, s.R(h).msgs, stale))
    decreases |s.R(h).msgs|
  {
    var q := s.R(h).msgs;
    if q == [] {
      assert MS.Marked(s.msgs, q, stale) == s.msgs;
      SetItself(s, h);
    } else {
      var t := Drop(s, h, stale);
      DropDequeues(s, h, stale);
      DequeuedKeeps(s, t, h, q[0], stale);
      hide MsgInv, DropAll;
      assert DropAll(s, h, stale) == DropAll(t, h, stale) by { DropMore(s, h, stale); }
      DropAllForm(t, h, stale);
      MarkedStep(s.msgs, q, stale);
    }
  }

  lemma DropMore(s: State, h: int, stale: bool)
    requires s.R(h).msgs != [] && 0 <= h < |s.res|
    ensures DropAll(s, h, stale) == DropAll(Drop(s, h, stale), h, stale)
  {
    hide Drop;
  }

  lemma MarkedStep(msgs: seq<Message>, q: seq<int>, stale: bool)
    requires q != []
    ensures var b := q[0];
            MS.Marked(msgs, q, stale)
            == MS.Marked(if 0 <= b < |msgs| then msgs[b := msgs[b].(stale := stale)] else msgs, q[1..], stale)
  {
    assert q == [q[0]] + q[1..];
  }

  lemma DestroyedForm(s: State, h: int, n: nat)
    requires Inv(s) && h in s.listed && KindsOk(s, n)
    ensures var u := Unlist(s, h);
            && u == s.(listed := Remove(s.listed, h)) && u.R(h) == s.R(h) && h !in u.freeMq && h !in u.freeStd
            && if s.R(h).kind == MESSAGE_QUEUE_TYPE then
                 && h >= n && h in LiveIn(s) && h !in AllFreed(u, h).freeMq
                 && Destroyed(s, h) == AllFreed(u, h).(freeMq := [h] + AllFreed(u, h).freeMq)
               else h < n && Destroyed(s, h) == u.(freeStd := [h] + u.freeStd)
  {
    var u := Unlist(s, h);
    assert HandlesOk(s);
    ListedInRange(s, h);
    UnlistMessages(s, h);
    DropAllForm(u, h, |s.R(h).msgs| >= 2);
    if s.R(h).kind != MESSAGE_QUEUE_TYPE {
      assert s.R(h).msgs == [];
      SetItself(u, h);
      assert MS.Marked(u.msgs, [], false) == u.msgs;
    }
  }

  ghost function Closed(s: State, p: int, d: int, mode: int): State {
    var h := s.D(d).res;
    Unlink(if s.R(h).kind == STANDARD_RESOURCE_TYPE then s else s.SetR(h, ClearSlot(s.R(h), mode)), p, d)
  }

  lemma CloseIs(s: State, p: int, fd: int, mode: int)
    ensures var d := ByFd(s, s.H(p).descs, fd);
            if d == NULL then Close(s, p, fd, mode).s == s && Close(s, p, fd, mode).ret == Value(DSOS_ERESOURCECLOSE)
            else Close(s, p, fd, mode).s == Closed(s, p, d, mode) && Close(s, p, fd, mode).ret == Value(0)
  {
  }

  ghost function OutOfProcess(s: State, p: int, d: int): State {
    s.SetH(p, s.H(p).(descs := Remove(s.H(p).descs, d)))
  }

  ghost function OutOfResource(s: State, d: int, h: int, ptr: int): State {
    s.SetR(h, s.R(h).(ptrs := Remove(s.R(h).ptrs, ptr)))
     .(freeDescs := [d] + s.freeDescs, freePtrs := [ptr] + s.freePtrs)
  }

  lemma StillLeads(s: State, p: int, d: int, h: int)
    ensures var t := OutOfProcess(s, p, d);
            t.R(h) == s.R(h) && t.D(d) == s.D(d) && t.freeDescs == s.freeDescs && t.freePtrs == s.freePtrs
  {
  }

  lemma ClearedLeads(s: State, d: int, h: int, mode: int)
    ensures var t := s.SetR(h, ClearSlot(s.R(h), mode));
            && t.D(d) == s.D(d) && t.freeDescs == s.freeDescs && t.freePtrs == s.freePtrs
            && t.R(h).ptrs == s.R(h).ptrs
  {
  }

  lemma CloseForm(s: State, p: int, d: int, h: int, mode: int)
    requires s.D(d).res == h && s.D(d).ptr == d
    ensures var t := OutOfProcess(s, p, d);
            && OutOfResource(t, d, h, d) == Unlink(s, p, d)
            && OutOfResource(t.SetR(h, ClearSlot(t.R(h), mode)), d, h, d)
               == Unlink(s.SetR(h, ClearSlot(s.R(h), mode)), p, d)
  {
    hide Remove;
  }

  lemma UnlinkKinds(s: State, p: int, d: int)
    ensures SameKinds(s, Unlink(s, p, d))
  {
    hide Remove;
  }

  lemma CloseKinds(s: State, p: int, fd: int, mode: int)
    ensures SameKinds(s, Close(s, p, fd, mode).s)
  {
    hide Unlink;
    var d := ByFd(s, s.H(p).descs, fd);
    var h := s.D(d).res;
    UnlinkKinds(s, p, d);
    UnlinkKinds(s.SetR(h, ClearSlot(s.R(h), mode)), p, d);
  }

  lemma InvParts(s: State)
    requires Inv(s)
    ensures DescInv(s) && HandlesOk(s)
  {
  }

  lemma KnownKind(s: State, h: int)
    requires HandlesOk(s) && h in s.listed
    ensures s.R(h).kind > STANDARD_RESOURCE_TYPE <==> s.R(h).kind == MESSAGE_QUEUE_TYPE
    ensures s.R(h).kind == STANDARD_RESOURCE_TYPE || s.R(h).kind == MESSAGE_QUEUE_TYPE
  {
  }

  ghost function Reopen(s: State, p: int, h: int, kind: int, mode: int): Out
    requires s.freeDescs != [] ==> s.freePtrs != []
  {
    if h == NULL || s.R(h).kind != kind then Fail(s, DSOS_ERESOURCEOPEN)
    else if mode == DSOS_EXCL && s.R(h).ptrs != [] then Fail(s, DSOS_ERESOURCENOEXCL)
    else if s.R(h).kind == STANDARD_RESOURCE_TYPE then Finish(s, p, h, mode)
    else if SlotTaken(s.R(h), mode) then Fail(s, DSOS_ERESOURCEOPEN)
    else Finish(TakeSlot(s, h, mode, p), p, h, mode)
  }

  /** The cases of opening an existing resource, in the order in which the code decides them. */
  lemma ReopenForm(s: State, p: int, h: int, kind: int, mode: int)
    requires (s.freeDescs != [] ==> s.freePtrs != []) && h != NULL
    ensures var o := Reopen(s, p, h, kind, mode);
            if s.R(h).kind != kind then o.s == s && o.ret == Value(DSOS_ERESOURCEOPEN)
            else if mode == DSOS_EXCL && s.R(h).ptrs != [] then o.s == s && o.ret == Value(DSOS_ERESOURCENOEXCL)
            else if s.R(h).kind == STANDARD_RESOURCE_TYPE then o == Finish(s, p, h, mode)
            else if SlotTaken(s.R(h), mode) then o.s == s && o.ret == Value(DSOS_ERESOURCEOPEN)
            else o == Finish(TakeSlot(s, h, mode, p), p, h, mode)
    ensures TakeSlot(s, h, mode, p).freeDescs == s.freeDescs && TakeSlot(s, h, mode, p).freePtrs == s.freePtrs
    ensures NULL == -1
  {
    hide Finish;
  }

  lemma ReopenNone(s: State, p: int, kind: int, mode: int)
    requires s.freeDescs != [] ==> s.freePtrs != []
    ensures Reopen(s, p, NULL, kind, mode).s == s && Reopen(s, p, NULL, kind, mode).ret == Value(DSOS_ERESOURCEOPEN)
  {
    hide Finish;
  }

  lemma TakesForm(s: State, p: int, id: int, kind: int, mode: int)
    ensures var h := ById(s, s.listed, id);
            TakesSlot(s, OpenOp(p, id, kind, mode)) <==>
              && h != NULL && (mode == DSOS_READ || mode == DSOS_WRITE)
              && s.R(h).kind == kind && kind == MESSAGE_QUEUE_TYPE
              && (if mode == DSOS_READ then s.R(h).reader == NULL else s.R(h).writer == NULL)
  {
  }

  lemma OpenAllowed(s: State, p: int, id: int, kind: int, mode: int)
    requires CanStep(s, OpenOp(p, id, kind, mode))
    ensures CanOpen(s, id, kind, mode)
  {
  }

  lemma OpenForm(s: State, p: int, id: int, kind: int, mode: int)
    requires CanOpen(s, id, kind, mode)
    ensures var h, o := ById(s, s.listed, id), Open(s, p, id, kind, mode);
            if mode != DSOS_CREATE then o == Reopen(s, p, h, kind, mode)
            else if h != NULL then o.s == s && o.ret == Value(DSOS_ERESOURCECREATE)
            else
              && 0 <= kind <= MESSAGE_QUEUE_TYPE && FreeOf(s, kind) != []
              && var t := NewResource(s, id, kind);
                 (t.freeDescs != [] ==> t.freePtrs != []) && o == Finish(t, p, FreeOf(s, kind)[0], DSOS_CREATE)
  {
    hide Finish;
  }

  /** The same resources of the same types. */
  ghost predicate SameKinds(s: State, t: State) {
    t.listed == s.listed && forall h :: t.R(h).kind == s.R(h).kind
  }

  lemma SameKindsKeep(s: State, t: State, n: int)
    requires SameKinds(s, t)
    ensures LiveIn(t) == LiveIn(s) && (KindsOk(s, n) ==> KindsOk(t, n))
  {
  }

  lemma TakenKinds(s: State, h: int, mode: int, p: int)
    ensures SameKinds(s, TakeSlot(s, h, mode, p))
  {
  }

  lemma FinishKinds(s: State, p: int, h: int, mode: int)
    requires s.freeDescs != [] ==> s.freePtrs != []
    ensures SameKinds(s, Finish(s, p, h, mode).s)
  {
  }

  ghost function InProcess(s: State, p: int, d: int): State
    requires s.freePtrs != []
  {
    s.(freePtrs := s.freePtrs[1..]).SetBack(s.freePtrs[0], d)
     .SetH(p, Holder(s.H(p).lastFd + 1, s.H(p).descs + [d]))
  }

  lemma InProcessForm(s: State, p: int, d: int)
    requires s.freePtrs != []
    ensures var u := s.SetH(p, s.H(p).(lastFd := s.H(p).lastFd + 1));
            var v := u.(freePtrs := u.freePtrs[1..]).SetBack(s.freePtrs[0], d);
            && u.freePtrs == s.freePtrs && v.H(p).descs == s.H(p).descs && (forall q :: v.H(q).descs == s.H(q).descs)
            && v.SetH(p, v.H(p).(descs := s.H(p).descs + [d])) == InProcess(s, p, d)
  {
  }

  lemma FinishForm(s: State, p: int, h: int, mode: int)
    requires s.freeDescs != [] ==> s.freePtrs != []
    ensures s.freeDescs == [] ==> Finish(s, p, h, mode).s == s
    ensures s.freeDescs == [] ==> Finish(s, p, h, mode).ret == Value(DSOS_ERESOURCENOFD)
    ensures s.freeDescs != [] ==> Finish(s, p, h, mode).s == Link(s, p, h, mode)
    ensures s.freeDescs != [] ==> Finish(s, p, h, mode).ret == Value(s.H(p).lastFd)
    ensures NULL == -1
  {
    hide Link;
  }

  /** Filling a descriptor changes no list. */
  lemma FilledSpares(s: State, free: seq<int>, d: int, x: Descriptor)
    ensures var t := s.(freeDescs := free).SetD(d, x);
            t.freePtrs == s.freePtrs && (forall q :: t.H(q) == s.H(q)) && (forall k :: t.R(k) == s.R(k))
  {
  }

  lemma SetDSpares(s: State, d: int, x: Descriptor)
    ensures forall k :: s.SetD(d, x).R(k) == s.R(k)
  {
  }

  lemma HeldNotNull(s: State, p: int)
    requires DescInv(s) && s.H(p).descs != []
    ensures s.H(p).descs[0] != -1
  {
    var d := s.H(p).descs[0];
    assert d in s.H(p).descs;
    assert Held(s, p, d);
  }

  lemma InProcessSpares(s: State, p: int, d: int)
    requires s.freePtrs != []
    ensures forall k :: InProcess(s, p, d).R(k) == s.R(k)
  {
  }

  /** The free blocks are in no list. */
  lemma FirstIsLoose(s: State)
    requires DescInv(s) && s.freeDescs != []
    ensures forall q :: s.freeDescs[0] !in s.H(q).descs
    ensures forall k :: s.freeDescs[0] !in s.R(k).ptrs
  {
    var d := s.freeDescs[0];
    assert d in s.freeDescs;
    forall q ensures d !in s.H(q).descs {
      assert d in s.H(q).descs ==> Held(s, q, d);
    }
    forall k ensures d !in s.R(k).ptrs {
      assert d in s.R(k).ptrs ==> InUse(s, d);
    }
  }

  ghost function InResource(s: State, d: int, ptr: int, h: int): State {
    s.SetD(d, s.D(d).(ptr := ptr)).SetR(h, s.R(h).(ptrs := s.R(h).ptrs + [ptr]))
  }

  lemma LinkForm(s: State, p: int, h: int, mode: int, t: State)
    requires s.freeDescs != [] && s.freePtrs != [] && 0 <= p < |s.holders| && 0 <= h < |s.res|
    requires 0 <= s.freeDescs[0] < |s.descs| && 0 <= s.freePtrs[0] < |s.backs|
    requires t == s.(freeDescs := s.freeDescs[1..])
                   .SetD(s.freeDescs[0], s.D(s.freeDescs[0]).(fd := s.H(p).lastFd, res := h, proc := p, mode := mode))
    ensures InResource(InProcess(t, p, s.freeDescs[0]), s.freeDescs[0], s.freePtrs[0], h) == Link(s, p, h, mode)
  {
  }

  lemma NewHandle(s: State, kind: int)
    requires Inv(s) && FreeOf(s, kind) != []
    ensures var h := FreeOf(s, kind)[0]; 0 <= h < |s.res| && h !in s.listed && s.R(h).msgs == [] && h !in LiveIn(s)
  {
    var h := FreeOf(s, kind)[0];
    assert h in FreeOf(s, kind);
    assert HandlesOk(s);
    UnlistedIsEmpty(s, h);
  }

  /** The header and the empty entries of a new resource. */
  ghost function Headed(s: State, h: int, id: int, kind: int): State {
    var t := s.SetR(h, s.R(h).(id := id, kind := kind));
    t.SetR(h, t.R(h).(ptrs := []))
  }

  lemma HeadedForm(s: State, h: int, id: int, kind: int)
    ensures var t := s.SetR(h, s.R(h).(id := id, kind := kind));
            t.SetR(h, t.R(h).(ptrs := [])) == Headed(s, h, id, kind)
  {
  }

  lemma NewResourceForm(s: State, id: int, kind: int)
    requires 0 <= kind <= MESSAGE_QUEUE_TYPE && FreeOf(s, kind) != []
    requires var h := FreeOf(s, kind)[0]; 0 <= h < |s.res| && h !in s.listed && s.R(h).msgs == []
    ensures var h := FreeOf(s, kind)[0];
            var u := if kind == MESSAGE_QUEUE_TYPE then s.(freeMq := s.freeMq[1..]) else s.(freeStd := s.freeStd[1..]);
            && Headed(u, h, id, kind).listed == s.listed
            && Headed(u, h, id, kind).(listed := s.listed + [h]) == NewResource(s, id, kind)
    ensures LiveIn(NewResource(s, id, kind))
            == if kind == MESSAGE_QUEUE_TYPE then LiveIn(s) + {FreeOf(s, kind)[0]} else LiveIn(s)
  {
  }

  lemma NewResourceKinds(s: State, id: int, kind: int, n: int)
    requires KindsOk(s, n) && FreeOf(s, kind) != [] && 0 <= FreeOf(s, kind)[0] < |s.res|
    requires kind == MESSAGE_QUEUE_TYPE <==> FreeOf(s, kind)[0] >= n
    requires FreeOf(s, kind)[0] !in s.listed
    ensures KindsOk(NewResource(s, id, kind), n)
  {
  }

  lemma SetItself(s: State, h: int)
    ensures s.SetR(h, s.R(h)) == s
  {
  }

  ghost function Outcome(q: seq<int>, b: int, accepted: bool): seq<int> {
    if accepted then q + [b] else q
  }

  ghost function Tail(q: seq<int>): seq<int> {
    if q == [] then [] else q[1..]
  }

  /** The records after queue h has become q. */
  ghost function WithMessages(rs: seq<Resource>, h: int, q: seq<int>): seq<Resource>
    requires 0 <= h < |rs|
  {
    rs[h := rs[h].(msgs := q)]
  }

  lemma QueueInState(s: State, h: int, q: seq<int>)
    requires 0 <= h < |s.res|
    ensures s.SetR(h, s.R(h).(msgs := q)) == s.(res := WithMessages(s.res, h, q)) && s.R(h).msgs == s.res[h].msgs
    ensures WithMessages(s.res, h, s.res[h].msgs) == s.res
  {
  }

  ghost function WithPtrs(rs: seq<Resource>, h: int, q: seq<int>): seq<Resource>
    requires 0 <= h < |rs|
  {
    rs[h := rs[h].(ptrs := q)]
  }

  ghost function WithDescs(ho: seq<Holder>, p: int, q: seq<int>): seq<Holder>
    requires 0 <= p < |ho|
  {
    ho[p := ho[p].(descs := q)]
  }

  /** The initial state in terms of the two pools of resource blocks. */
  lemma BootForm(standard: nat, queues: nat, descriptors: nat, processes: nat, messages: nat)
    ensures Boot(standard, queues, descriptors, processes, messages)
            == State(seq(standard + queues, _ => NoResource), [], seq(standard, i => i),
                     Shift(seq(queues, i => i), standard),
                     seq(descriptors, _ => UnusedDescriptor), seq(descriptors, _ => NULL), seq(descriptors, i => i),
                     seq(descriptors, i => i), seq(processes, _ => Holder(0, [])),
                     seq(messages, _ => Message([], false)), seq(messages, i => i), [])
  {
    assert Shift(seq(queues, i => i), standard) == seq(queues, i => standard + i);
  }

  lemma PtrsInState(s: State, h: int, q: seq<int>)
    requires 0 <= h < |s.res|
    ensures s.SetR(h, s.R(h).(ptrs := q)) == s.(res := WithPtrs(s.res, h, q)) && s.R(h).ptrs == s.res[h].ptrs
  {
  }

  lemma DescsInState(s: State, p: int, q: seq<int>)
    requires 0 <= p < |s.holders|
    ensures s.SetH(p, s.H(p).(descs := q)) == s.(holders := WithDescs(s.holders, p, q))
    ensures s.H(p).descs == s.holders[p].descs
  {
  }

  /** mq_free on values. */
  ghost function AllFreed(s: State, h: int): State {
    var q := s.R(h).msgs;
    s.SetR(h, s.R(h).(msgs := []))
     .(freeMsgs := MS.ReleasedAll(s.freeMsgs, q), msgs := MS.Marked(s.msgs, q, |q| >= 2))
  }

  lemma ByIdStep(s: State, listed: seq<int>, id: int)
    requires listed != []
    ensures ById(s, listed, id) == if s.R(listed[0]).id == id then listed[0] else ById(s, listed[1..], id)
  {
  }

  lemma ByIdEnd(s: State, listed: seq<int>, id: int)
    requires listed == []
    ensures ById(s, listed, id) == NULL
  {
  }

  lemma ByFdStep(s: State, descs: seq<int>, fd: int)
    requires descs != []
    ensures ByFd(s, descs, fd) == if s.D(descs[0]).fd == fd then descs[0] else ByFd(s, descs[1..], fd)
  {
  }

  lemma ByFdEnd(s: State, descs: seq<int>, fd: int)
    requires descs == []
    ensures ByFd(s, descs, fd) == NULL
  {
  }
}
