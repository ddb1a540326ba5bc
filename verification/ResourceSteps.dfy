/** Every resource call keeps the invariants. */
module ResourceSteps {
  import opened Sequences
  import opened ResourceModel
  import opened Messages
  import opened Descriptors

  ghost predicate Inv(s: State) {
    MsgInv(s) && DescInv(s)
  }

  // ---------- lookups ----------

  lemma {:induction false} ByIdNone(s: State, listed: seq<int>, id: int)
    requires NULL !in listed && ById(s, listed, id) == NULL
    ensures forall h :: h in listed ==> s.R(h).id != id
  {
    if listed != [] {
      ByIdNone(s, listed[1..], id);
    }
  }

  lemma {:induction false} ByIdFinds(s: State, listed: seq<int>, h: int)
    requires h in listed && forall k :: k in listed && s.R(k).id == s.R(h).id ==> k == h
    ensures ById(s, listed, s.R(h).id) == h
  {
    if s.R(listed[0]).id != s.R(h).id {
      ByIdFinds(s, listed[1..], h);
    }
  }

  lemma {:induction false} ByFdFinds(s: State, descs: seq<int>, d: int)
    requires d in descs && forall e :: e in descs && s.D(e).fd == s.D(d).fd ==> e == d
    ensures ByFd(s, descs, s.D(d).fd) == d
  {
    if s.D(descs[0]).fd != s.D(d).fd {
      ByFdFinds(s, descs[1..], d);
    }
  }

  /** A resource is found by its id, and by nothing else. */
  lemma IdsAreKeys(s: State, h: int, id: int)
    requires Inv(s) && h in s.listed
    ensures ById(s, s.listed, id) == h <==> s.R(h).id == id
  {
    if s.R(h).id == id {
      ByIdFinds(s, s.listed, h);
    }
  }

  /** A descriptor is found by its fd, and by nothing else. */
  lemma FdsAreKeys(s: State, p: int, d: int, fd: int)
    requires Inv(s) && d in s.H(p).descs
    ensures ByFd(s, s.H(p).descs, fd) == d <==> s.D(d).fd == fd
  {
    assert Held(s, p, d);
    if s.D(d).fd == fd {
      ByFdFinds(s, s.H(p).descs, d);
    }
  }

  lemma ListedInRange(s: State, h: int)
    requires HandlesOk(s) && h in s.listed
    ensures 0 <= h < |s.res|
  {
  }

  /** The queue that a descriptor names is a listed message queue. */
  lemma QueueListed(s: State, p: int, fd: int)
    requires DescInv(s) && QueueOf(s, p, fd) >= 0
    ensures QueueOf(s, p, fd) in s.listed && s.R(QueueOf(s, p, fd)).kind == MESSAGE_QUEUE_TYPE
  {
    var d := ByFd(s, s.H(p).descs, fd);
    assert Held(s, p, d);
  }

  // ---------- open ----------

  lemma LinkSameMessages(s: State, p: int, h: int, mode: int)
    requires s.freeDescs != [] && s.freePtrs != []
    ensures SameMessages(s, Link(s, p, h, mode))
  {
  }

  lemma FinishKeeps(s: State, p: int, h: int, mode: int)
    requires Inv(s) && 0 <= p < |s.holders| && h in s.listed
    ensures s.freeDescs != [] ==> s.freePtrs != []
    ensures Inv(Finish(s, p, h, mode).s) && (NoLeak(s) ==> NoLeak(Finish(s, p, h, mode).s))
  {
    assert PoolsOk(s);
    ListedInRange(s, h);
    hide MsgInv, DescInv, NoLeak, PoolsOk, Link;
    if s.freeDescs != [] {
      LinkKeeps(s, p, h, mode);
    }
  }

  lemma LinkKeeps(s: State, p: int, h: int, mode: int)
    requires Inv(s) && 0 <= p < |s.holders| && h in s.listed && s.freeDescs != [] && s.freePtrs != []
    ensures Inv(Link(s, p, h, mode)) && (NoLeak(s) ==> NoLeak(Link(s, p, h, mode)))
  {
    ListedInRange(s, h);
    assert PoolsOk(s);
    hide MsgInv, DescInv, NoLeak, PoolsOk, Link;
    LinkSameMessages(s, p, h, mode);
    SameMessagesKeep(s, Link(s, p, h, mode));
    LinkLinks(s, p, h, mode);
    LinkedKeeps(s, Link(s, p, h, mode), p, h, s.freeDescs[0]);
  }

  lemma NewResourceKeeps(s: State, id: int, kind: int)
    requires Inv(s) && 0 <= kind <= MESSAGE_QUEUE_TYPE && FreeOf(s, kind) != []
    requires ById(s, s.listed, id) == NULL
    ensures Inv(NewResource(s, id, kind)) && (NoLeak(s) ==> NoLeak(NewResource(s, id, kind)))
    ensures FreeOf(s, kind)[0] in NewResource(s, id, kind).listed
    ensures NewResource(s, id, kind).holders == s.holders
  {
    var t, h := NewResource(s, id, kind), FreeOf(s, kind)[0];
    assert HandlesOk(s);
    ByIdNone(s, s.listed, id);
    NewResourceLists(s, id, kind);
    hide MsgInv, DescInv, NoLeak, HandlesOk;
    ListedKeeps(s, t, h, id, kind);
    NewResourceMessages(s, id, kind);
    SameMessagesKeep(s, t);
  }

  lemma NewResourceMessages(s: State, id: int, kind: int)
    requires FreeOf(s, kind) != [] && s.R(FreeOf(s, kind)[0]).msgs == []
    ensures SameMessages(s, NewResource(s, id, kind))
  {
  }

  /** Changing the slots of a queue touches neither links nor messages. */
  lemma SlotsKeep(s: State, h: int, r: Resource)
    requires Inv(s) && r == s.R(h).(reader := r.reader, writer := r.writer)
    ensures Inv(s.SetR(h, r)) && (NoLeak(s) ==> NoLeak(s.SetR(h, r)))
  {
    var t := s.SetR(h, r);
    assert HandlesOk(s);
    assert SameLinks(s, t) && SameMessages(s, t);
    assert forall k :: t.R(k).msgs == s.R(k).msgs;
    hide MsgInv, DescInv, NoLeak;
    SameMessagesKeep(s, t);
    SameLinksKeep(s, t);
  }

  lemma TakenKeeps(s: State, h: int, mode: int, p: int)
    requires Inv(s)
    ensures DescInv(TakeSlot(s, h, mode, p)) && TakeSlot(s, h, mode, p).holders == s.holders
    ensures |TakeSlot(s, h, mode, p).res| == |s.res|
    ensures TakeSlot(s, h, mode, p).freePtrs == s.freePtrs && TakeSlot(s, h, mode, p).freeDescs == s.freeDescs
  {
    SlotsKeep(s, h, s.R(h).(reader := if mode == DSOS_READ then p else s.R(h).reader,
                            writer := if mode == DSOS_WRITE then p else s.R(h).writer));
  }

  lemma OpenKeeps(s: State, p: int, id: int, kind: int, mode: int)
    requires Inv(s) && 0 <= p < |s.holders| && CanOpen(s, id, kind, mode)
    ensures Inv(Open(s, p, id, kind, mode).s) && (NoLeak(s) ==> NoLeak(Open(s, p, id, kind, mode).s))
  {
    hide Inv, NoLeak, Finish, NewResource;
    var h := ById(s, s.listed, id);
    if mode == DSOS_CREATE {
      if h == NULL {
        NewResourceKeeps(s, id, kind);
        FinishKeeps(NewResource(s, id, kind), p, FreeOf(s, kind)[0], mode);
      }
    } else if h != NULL {
      FinishKeeps(s, p, h, mode);
      var r := TakeSlot(s, h, mode, p).R(h);
      SlotsKeep(s, h, s.R(h).(reader := if mode == DSOS_READ then p else s.R(h).reader,
                              writer := if mode == DSOS_WRITE then p else s.R(h).writer));
      FinishKeeps(TakeSlot(s, h, mode, p), p, h, mode);
    }
  }

  // ---------- close and exit ----------

  lemma UnlinkKeeps(s: State, p: int, d: int)
    requires Inv(s) && 0 <= p < |s.holders| && d in s.H(p).descs
    ensures Inv(Unlink(s, p, d)) && (NoLeak(s) ==> NoLeak(Unlink(s, p, d)))
  {
    hide MsgInv, DescInv, NoLeak;
    UnlinkUnlinks(s, p, d);
    UnlinkedKeeps(s, Unlink(s, p, d), p, s.D(d).res, d);
    UnlinkSameMessages(s, p, d);
    SameMessagesKeep(s, Unlink(s, p, d));
  }

  lemma UnlinkSameMessages(s: State, p: int, d: int)
    ensures SameMessages(s, Unlink(s, p, d))
  {
    hide Remove;
  }

  lemma CloseKeeps(s: State, p: int, fd: int, mode: int)
    requires Inv(s) && 0 <= p < |s.holders|
    ensures Inv(Close(s, p, fd, mode).s) && (NoLeak(s) ==> NoLeak(Close(s, p, fd, mode).s))
  {
    hide Inv, NoLeak, Unlink;
    var d := ByFd(s, s.H(p).descs, fd);
    if d != NULL {
      var h := s.D(d).res;
      if s.R(h).kind == STANDARD_RESOURCE_TYPE {
        UnlinkKeeps(s, p, d);
      } else {
        SlotsKeep(s, h, ClearSlot(s.R(h), mode));
        UnlinkKeeps(s.SetR(h, ClearSlot(s.R(h), mode)), p, d);
      }
    }
  }

  lemma ReleaseOne(s: State, p: int)
    requires s.H(p).descs != [] && 0 <= p < |s.holders|
    ensures Release(s, p) == Release(Unlink(s, p, s.H(p).descs[0]), p)
  {
    hide Unlink;
  }

  lemma ReleaseNone(s: State, p: int)
    requires s.H(p).descs == []
    ensures Release(s, p) == s
  {
  }

  lemma {:induction false} ReleaseKeepsInv(s: State, p: int)
    requires Inv(s) && 0 <= p < |s.holders|
    ensures Inv(Release(s, p)) && (NoLeak(s) ==> NoLeak(Release(s, p)))
    decreases |s.H(p).descs|
  {
    hide Inv, NoLeak, Unlink;
    if s.H(p).descs != [] {
      UnlinkKeeps(s, p, s.H(p).descs[0]);
      UnlinkedSizes(s, p, s.H(p).descs[0]);
      ReleaseKeepsInv(Unlink(s, p, s.H(p).descs[0]), p);
    }
  }

  lemma ResetKeepsInv(s: State, p: int)
    requires Inv(s) && 0 <= p < |s.holders|
    ensures Inv(Reset(s, p))
    ensures NoLeak(s) ==> (NoLeak(Reset(s, p)) <==> s.H(p).descs == [])
  {
    assert SameMessages(s, Reset(s, p));
    hide MsgInv, DescInv, NoLeak;
    SameMessagesKeep(s, Reset(s, p));
    ResetKeeps(s, p);
  }

  // ---------- destroy ----------

  function Unlist(s: State, h: int): State {
    s.(listed := Remove(s.listed, h))
  }

  function ToPool(s: State, h: int): State {
    if s.R(h).kind == MESSAGE_QUEUE_TYPE then s.(freeMq := [h] + s.freeMq) else s.(freeStd := [h] + s.freeStd)
  }

  function Destroyed(s: State, h: int): State {
    ToPool(DropAll(Unlist(s, h), h, |s.R(h).msgs| >= 2), h)
  }

  lemma DestroyIs(s: State, id: int)
    requires Inv(s)
    ensures var h := ById(s, s.listed, id);
            Destroy(s, id).s == if h == NULL || s.R(h).ptrs != [] then s else Destroyed(s, h)
  {
    var h := ById(s, s.listed, id);
    if h != NULL {
      ListedInRange(s, h);
      UnlistMessages(s, h);
      hide MsgInv, DescInv, DropAll;
      DropAllKeeps(Unlist(s, h), h, |s.R(h).msgs| >= 2);
    }
  }

  lemma UnlistMessages(s: State, h: int)
    requires MsgInv(s)
    ensures MsgInv(Unlist(s, h)) && Unlist(s, h).R(h) == s.R(h) && |Unlist(s, h).res| == |s.res|
  {
    assert SameMessages(s, Unlist(s, h));
    hide MsgInv;
    SameMessagesKeep(s, Unlist(s, h));
  }

  lemma ToPoolMessages(s: State, h: int)
    requires MsgInv(s)
    ensures MsgInv(ToPool(s, h))
  {
    assert SameMessages(s, ToPool(s, h));
    hide MsgInv;
    SameMessagesKeep(s, ToPool(s, h));
  }

  lemma DestroyedUnlists(s: State, u: State, t: State, h: int, stale: bool)
    requires h in s.listed && s.R(h).ptrs == [] && u == Unlist(s, h)
    requires Emptied(u, t, h, stale) && SameTables(u, t)
    ensures Unlisted(s, ToPool(t, h), h) && Emptied(s, ToPool(t, h), h, stale)
  {
    hide Remove;
    assert forall k :: u.R(k) == s.R(k);
    assert forall b :: u.M(b) == s.M(b);
    var v := ToPool(t, h);
    assert forall k :: v.R(k) == t.R(k);
    assert forall b :: v.M(b) == t.M(b);
  }

  lemma DestroyedKeeps(s: State, h: int)
    requires Inv(s) && h in s.listed && s.R(h).ptrs == []
    ensures Inv(Destroyed(s, h)) && (NoLeak(s) ==> NoLeak(Destroyed(s, h)))
    ensures forall p, d :: d in s.H(p).descs ==> s.D(d).res != h
    ensures Emptied(s, Destroyed(s, h), h, |s.R(h).msgs| >= 2) && Unlisted(s, Destroyed(s, h), h)
  {
    ListedInRange(s, h);
    UnlistMessages(s, h);
    var u, stale := Unlist(s, h), |s.R(h).msgs| >= 2;
    var t := DropAll(u, h, stale);
    hide MsgInv, DescInv, DropAll, NoLeak, Remove, Unlisted, Emptied, SameTables, ToPool;
    DropAllKeeps(u, h, stale);
    ToPoolMessages(t, h);
    DestroyedUnlists(s, u, t, h, stale);
    UnlistedKeeps(s, Destroyed(s, h), h);
  }

  // ---------- messages ----------

  lemma PutKeeps(s: State, h: int, text: seq<char>)
    requires Inv(s) && s.freeMsgs != [] && h in s.listed && s.R(h).kind == MESSAGE_QUEUE_TYPE
    requires |text| <= MESSAGE_STRING_MAX_LENGTH && |s.R(h).msgs| != M_FOR_MQ
    ensures Inv(Put(s, h, text)) && (NoLeak(s) ==> NoLeak(Put(s, h, text)))
    ensures if s.M(s.freeMsgs[0]).stale then Lost(s, Put(s, h, text), s.freeMsgs[0], text)
            else Enqueued(s, Put(s, h, text), h, s.freeMsgs[0], text)
  {
    var t, b := Put(s, h, text), s.freeMsgs[0];
    ListedInRange(s, h);
    assert |s.R(h).msgs| < M_FOR_MQ;
    assert forall k :: t.R(k).msgs != [] ==> k in s.listed;
    assert SameLinks(s, t);
    if s.M(b).stale { PutLoses(s, h, text); } else { PutEnqueues(s, h, text); }
    hide MsgInv, DescInv, NoLeak, Put, SameLinks;
    if s.M(b).stale { LostKeeps(s, t, b, text); } else { EnqueuedKeeps(s, t, h, b, text); }
    SameLinksKeep(s, t);
  }

  lemma WriteKeeps(s: State, p: int, fd: int, buffer: seq<char>, length: int)
    requires Inv(s) && CanWrite(s, p, fd, buffer, length)
    ensures Inv(Write(s, p, fd, buffer, length).s)
    ensures NoLeak(s) ==> NoLeak(Write(s, p, fd, buffer, length).s)
  {
    var h := QueueOf(s, p, fd);
    if ValidLength(length) && h >= 0 && |s.R(h).msgs| != M_FOR_MQ {
      QueueListed(s, p, fd);
      hide Inv, NoLeak, Put;
      PutKeeps(s, h, buffer[..length]);
    }
  }

  lemma DropKeeps(s: State, h: int)
    requires Inv(s) && h in s.listed && s.R(h).kind == MESSAGE_QUEUE_TYPE && s.R(h).msgs != []
    ensures Inv(Drop(s, h, false)) && (NoLeak(s) ==> NoLeak(Drop(s, h, false)))
    ensures Dequeued(s, Drop(s, h, false), h, s.R(h).msgs[0], false)
  {
    var t := Drop(s, h, false);
    ListedInRange(s, h);
    DropDequeues(s, h, false);
    assert SameLinks(s, t);
    assert forall k :: t.R(k).msgs != [] ==> k in s.listed;
    hide MsgInv, DescInv, NoLeak, Drop, SameLinks;
    DequeuedKeeps(s, t, h, s.R(h).msgs[0], false);
    SameLinksKeep(s, t);
  }

  lemma ReadKeeps(s: State, p: int, fd: int, length: int)
    requires Inv(s)
    ensures Inv(Read(s, p, fd, length).s) && (NoLeak(s) ==> NoLeak(Read(s, p, fd, length).s))
  {
    var h := QueueOf(s, p, fd);
    if h >= 0 && s.R(h).msgs != [] {
      QueueListed(s, p, fd);
      hide Inv, NoLeak, Drop;
      DropKeeps(s, h);
    }
  }

  // ---------- every step and every run ----------

  /** A new process in a block whose former process left descriptors behind. */
  predicate Forgets(s: State, op: Op) {
    op.ResetOp? && s.H(op.p).descs != []
  }

  lemma StepKeepsInv(s: State, op: Op)
    requires Inv(s) && CanStep(s, op)
    ensures Inv(Step(s, op))
    ensures NoLeak(s) ==> (NoLeak(Step(s, op)) <==> !Forgets(s, op))
  {
    hide Inv, NoLeak, Open, Close, Write, Read, Release, Reset, Destroyed;
    match op
    case OpenOp(p, id, kind, mode) => OpenKeeps(s, p, id, kind, mode);
    case CloseOp(p, fd, mode) => CloseKeeps(s, p, fd, mode);
    case DestroyOp(id) =>
      DestroyIs(s, id);
      var h := ById(s, s.listed, id);
      if h != NULL && s.R(h).ptrs == [] {
        DestroyedKeeps(s, h);
      }
    case WriteOp(p, fd, buffer, length) => WriteKeeps(s, p, fd, buffer, length);
    case ReadOp(p, fd, length) => ReadKeeps(s, p, fd, length);
    case ReleaseOp(p) => ReleaseKeepsInv(s, p);
    case ResetOp(p) => ResetKeepsInv(s, p);
  }

  /** No step of the run forgets descriptors. */
  predicate Tidy(s: State, ops: seq<Op>)
    requires ValidRun(s, ops)
    decreases ops
  {
    ops == [] || (!Forgets(s, ops[0]) && Tidy(Step(s, ops[0]), ops[1..]))
  }

  lemma {:induction false} RunKeepsInv(s: State, ops: seq<Op>)
    requires Inv(s) && ValidRun(s, ops)
    ensures Inv(After(s, ops))
    ensures NoLeak(s) && Tidy(s, ops) ==> NoLeak(After(s, ops))
    decreases ops
  {
    hide Inv, NoLeak, Step;
    if ops != [] {
      StepKeepsInv(s, ops[0]);
      RunKeepsInv(Step(s, ops[0]), ops[1..]);
    }
  }

  // ---------- the initial state ----------

  const UnusedDescriptor := Descriptor(NULL, NULL, 0, NULL, 0)

  /** Nothing is open and every pool is full.  Message queues follow the standard resources in the
      numbering of resource blocks. */
  function Boot(standard: nat, queues: nat, descriptors: nat, processes: nat, messages: nat): State {
    State(seq(standard + queues, _ => NoResource), [], seq(standard, i => i), seq(queues, i => standard + i),
          seq(descriptors, _ => UnusedDescriptor), seq(descriptors, _ => NULL),
          seq(descriptors, i => i), seq(descriptors, i => i),
          seq(processes, _ => Holder(0, [])), seq(messages, _ => Message([], false)), seq(messages, i => i), [])
  }

  lemma {:induction false} NoTotal(res: seq<Resource>)
    requires forall i :: 0 <= i < |res| ==> res[i].msgs == []
    ensures Total(res) == 0
  {
    if res != [] {
      NoTotal(res[1..]);
    }
  }

  lemma BootInv(standard: nat, queues: nat, descriptors: nat, processes: nat, messages: nat)
    ensures Inv(Boot(standard, queues, descriptors, processes, messages))
    ensures NoLeak(Boot(standard, queues, descriptors, processes, messages))
  {
    var s := Boot(standard, queues, descriptors, processes, messages);
    NoTotal(s.res);
    assert forall h :: s.R(h) == NoResource;
    assert forall p :: s.H(p) == Holder(0, []);
  }

  // ---------- what the invariants mean over runs ----------

  /** In every run, message blocks are conserved, no queue exceeds its bound, descriptors and their
      pointers are allocated in lock step, and an open or write that finds a block finds the other. */
  lemma RunConserves(standard: nat, queues: nat, descriptors: nat, processes: nat, messages: nat, ops: seq<Op>)
    requires ValidRun(Boot(standard, queues, descriptors, processes, messages), ops)
    ensures var t := After(Boot(standard, queues, descriptors, processes, messages), ops);
            && |t.freeMsgs| + Total(t.res) + |t.lost| == |t.msgs|
            && (forall h :: |t.R(h).msgs| <= M_FOR_MQ)
            && (forall h, k, b :: b in t.R(h).msgs && b in t.R(k).msgs ==> h == k)
            && |t.freeDescs| == |t.freePtrs|
  {
    BootInv(standard, queues, descriptors, processes, messages);
    RunKeepsInv(Boot(standard, queues, descriptors, processes, messages), ops);
    hide Boot, After;
  }

  /** From the start, if no process leaves descriptors behind when its block gets a new process, the
      descriptors held by processes and the entries of resources correspond one to one. */
  lemma RunBijection(standard: nat, queues: nat, descriptors: nat, processes: nat, messages: nat, ops: seq<Op>, d: int)
    requires ValidRun(Boot(standard, queues, descriptors, processes, messages), ops)
    requires Tidy(Boot(standard, queues, descriptors, processes, messages), ops)
    ensures var t := After(Boot(standard, queues, descriptors, processes, messages), ops);
            && ((exists p :: d in t.H(p).descs) <==> (exists h :: d in t.R(h).ptrs))
            && (forall p, q :: d in t.H(p).descs && d in t.H(q).descs ==> p == q)
            && (forall h, k :: d in t.R(h).ptrs && d in t.R(k).ptrs ==> h == k)
            && (forall p :: d in t.H(p).descs ==> d in t.R(t.D(d).res).ptrs && t.Back(t.D(d).ptr) == d)
  {
    var s := Boot(standard, queues, descriptors, processes, messages);
    BootInv(standard, queues, descriptors, processes, messages);
    RunKeepsInv(s, ops);
    hide Boot, After, Tidy, ValidRun, MsgInv, NoLeak;
    var t := After(s, ops);
    Bijection(t, d);
    forall p | d in t.H(p).descs ensures d in t.R(t.D(d).res).ptrs && t.Back(t.D(d).ptr) == d {
      assert Held(t, p, d);
    }
  }

  /** A resource that was destroyed is not listed and not named by any descriptor that a process holds. */
  lemma DestroyedIsUnreferenced(s: State, id: int)
    requires Inv(s) && Destroy(s, id).ret == Value(0)
    ensures var h, t := ById(s, s.listed, id), Destroy(s, id).s;
            && h !in t.listed && ById(t, t.listed, id) == NULL
            && forall p, d :: d in t.H(p).descs ==> t.D(d).res != h
  {
    var h, t := ById(s, s.listed, id), Destroy(s, id).s;
    DestroyIs(s, id);
    DestroyedKeeps(s, h);
    assert Distinct(s.listed);
    RemoveMembers(s.listed, h);
    IdGone(s, t, h, id);
  }

  lemma IdGone(s: State, t: State, h: int, id: int)
    requires Inv(s) && h in s.listed && s.R(h).id == id && Unlisted(s, t, h)
    requires forall k :: k in t.listed <==> k in s.listed && k != h
    ensures ById(t, t.listed, id) == NULL
  {
    var k := ById(t, t.listed, id);
    assert k != NULL ==> k in s.listed && t.R(k) == s.R(k);
  }
}
