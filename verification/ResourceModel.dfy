/** Resources, descriptors and message queues as a state machine over values.  Every structure is
    named by its block in its pool. */
module ResourceModel {
  import opened Sequences

  const NULL := -1

  const DSOS_CREATE := 1
  const DSOS_READ := 2
  const DSOS_WRITE := 3
  const DSOS_EXCL := 4

  const DSOS_ERESOURCECREATE := -8
  const DSOS_ERESOURCEOPEN := -9
  const DSOS_ERESOURCENOEXCL := -10
  const DSOS_ERESOURCENOFD := -11
  const DSOS_ERESOURCECLOSE := -12
  const DSOS_ERESOURCEINUSE := -13
  const DSOS_ERESOURCETYPEWRONG := -15
  const DSOS_MESSAGELENGTHNOTVALID := -17
  const DSOS_MESSAGEQUEUEFULL := -18
  const DSOS_MESSAGEQUEUEEMPTY := -19
  const DSOS_RESOURCENOTFOUND := -20
  const DSOS_WAITINGFORMESSAGE := -22

  const STANDARD_RESOURCE_TYPE := 0
  const MESSAGE_QUEUE_TYPE := 1
  const M_FOR_MQ := 128
  const MESSAGE_STRING_MAX_LENGTH := 128

  /** `mode` is history: the source does not store the mode a descriptor was opened with. */
  datatype Descriptor = Descriptor(proc: int, res: int, fd: int, ptr: int, mode: int)

  /** `ptrs` are the descriptor pointers, `msgs` the message blocks of a queue; `reader` and `writer`
      are the processes in the two slots of a queue. */
  datatype Resource = Resource(id: int, kind: int, ptrs: seq<int>, msgs: seq<int>, reader: int, writer: int)

  datatype Holder = Holder(lastFd: int, descs: seq<int>)

  /** A message block outside every queue is stale when its links are not null. */
  datatype Message = Message(text: seq<char>, stale: bool)

  /** `lost` is history: message blocks in use that are in no queue. */
  datatype State = State(res: seq<Resource>, listed: seq<int>, freeStd: seq<int>, freeMq: seq<int>,
                         descs: seq<Descriptor>, backs: seq<int>, freeDescs: seq<int>, freePtrs: seq<int>,
                         holders: seq<Holder>, msgs: seq<Message>, freeMsgs: seq<int>, lost: seq<int>)
  {
    function R(h: int): Resource {
      if 0 <= h < |res| then res[h] else NoResource
    }

    function D(d: int): Descriptor {
      if 0 <= d < |descs| then descs[d] else Descriptor(NULL, NULL, NULL, NULL, 0)
    }

    function H(p: int): Holder {
      if 0 <= p < |holders| then holders[p] else Holder(0, [])
    }

    function M(b: int): Message {
      if 0 <= b < |msgs| then msgs[b] else Message([], false)
    }

    function Back(ptr: int): int {
      if 0 <= ptr < |backs| then backs[ptr] else NULL
    }

    function SetR(h: int, r: Resource): (s: State)
      ensures forall x :: s.R(x) == if x == h && 0 <= h < |res| then r else R(x)
    {
      if 0 <= h < |res| then this.(res := res[h := r]) else this
    }

    function SetD(d: int, desc: Descriptor): (s: State)
      ensures forall x :: s.D(x) == if x == d && 0 <= d < |descs| then desc else D(x)
    {
      if 0 <= d < |descs| then this.(descs := descs[d := desc]) else this
    }

    function SetH(p: int, h: Holder): (s: State)
      ensures forall x :: s.H(x) == if x == p && 0 <= p < |holders| then h else H(x)
    {
      if 0 <= p < |holders| then this.(holders := holders[p := h]) else this
    }

    function SetM(b: int, m: Message): (s: State)
      ensures forall x :: s.M(x) == if x == b && 0 <= b < |msgs| then m else M(x)
    {
      if 0 <= b < |msgs| then this.(msgs := msgs[b := m]) else this
    }

    function SetBack(ptr: int, d: int): (s: State)
      ensures forall x :: s.Back(x) == if x == ptr && 0 <= ptr < |backs| then d else Back(x)
    {
      if 0 <= ptr < |backs| then this.(backs := backs[ptr := d]) else this
    }
  }

  const NoResource := Resource(0, STANDARD_RESOURCE_TYPE, [], [], NULL, NULL)

  /** What the caller finds in its result register: the write to a full queue leaves it alone. */
  datatype Ret = Value(v: int) | Unchanged

  datatype Out = Out(s: State, ret: Ret, data: seq<char>)

  function Fail(s: State, code: int): Out {
    Out(s, Value(code), [])
  }

  // ---------- lookups ----------

  /** ResourceList_byId. */
  function ById(s: State, listed: seq<int>, id: int): (h: int)
    ensures h == NULL || (h in listed && s.R(h).id == id)
  {
    if listed == [] then NULL
    else if s.R(listed[0]).id == id then listed[0]
    else ById(s, listed[1..], id)
  }

  /** DescriptorList_byFd. */
  function ByFd(s: State, descs: seq<int>, fd: int): (d: int)
    ensures d == NULL || (d in descs && s.D(d).fd == fd)
  {
    if descs == [] then NULL
    else if s.D(descs[0]).fd == fd then descs[0]
    else ByFd(s, descs[1..], fd)
  }

  // ---------- open ----------

  function FreeOf(s: State, kind: int): seq<int> {
    if kind == MESSAGE_QUEUE_TYPE then s.freeMq else s.freeStd
  }

  /** Resource_alloc, for the two known types.  mq_alloc does not clear the reader and writer slots. */
  function NewResource(s: State, id: int, kind: int): State
    requires FreeOf(s, kind) != []
  {
    var h := FreeOf(s, kind)[0];
    var t := s.SetR(h, s.R(h).(id := id, kind := kind, ptrs := [], msgs := []));
    t.(listed := s.listed + [h],
       freeMq := if kind == MESSAGE_QUEUE_TYPE then s.freeMq[1..] else s.freeMq,
       freeStd := if kind == MESSAGE_QUEUE_TYPE then s.freeStd else s.freeStd[1..])
  }

  /** mq_set_mode refuses a slot that is taken. */
  predicate SlotTaken(r: Resource, mode: int) {
    (mode == DSOS_READ && r.reader != NULL) || (mode == DSOS_WRITE && r.writer != NULL)
  }

  function TakeSlot(s: State, h: int, mode: int, p: int): State {
    s.SetR(h, s.R(h).(reader := if mode == DSOS_READ then p else s.R(h).reader,
                      writer := if mode == DSOS_WRITE then p else s.R(h).writer))
  }

  /** The new descriptor and its entry in the resource. */
  function Link(s: State, p: int, h: int, mode: int): State
    requires s.freeDescs != [] && s.freePtrs != []
  {
    var d, ptr := s.freeDescs[0], s.freePtrs[0];
    s.SetD(d, Descriptor(p, h, s.H(p).lastFd, ptr, mode))
     .SetBack(ptr, d)
     .SetH(p, Holder(s.H(p).lastFd + 1, s.H(p).descs + [d]))
     .SetR(h, s.R(h).(ptrs := s.R(h).ptrs + [ptr]))
     .(freeDescs := s.freeDescs[1..], freePtrs := s.freePtrs[1..])
  }

  function Finish(s: State, p: int, h: int, mode: int): Out
    requires s.freeDescs != [] ==> s.freePtrs != []
  {
    if s.freeDescs == [] then Fail(s, DSOS_ERESOURCENOFD)
    else Out(Link(s, p, h, mode), Value(s.H(p).lastFd), [])
  }

  /** The source follows a null pointer when it creates a resource of an unknown type or when the
      pool of the type is empty, or when a descriptor is left but no descriptor pointer. */
  predicate CanOpen(s: State, id: int, kind: int, mode: int) {
    && (mode == DSOS_CREATE && ById(s, s.listed, id) == NULL ==>
          0 <= kind <= MESSAGE_QUEUE_TYPE && FreeOf(s, kind) != [])
    && (s.freeDescs != [] ==> s.freePtrs != [])
  }

  function Open(s: State, p: int, id: int, kind: int, mode: int): Out
    requires CanOpen(s, id, kind, mode)
  {
    var h := ById(s, s.listed, id);
    if mode == DSOS_CREATE then
      if h != NULL then Fail(s, DSOS_ERESOURCECREATE)
      else Finish(NewResource(s, id, kind), p, FreeOf(s, kind)[0], mode)
    else if h == NULL || s.R(h).kind != kind then Fail(s, DSOS_ERESOURCEOPEN)
    else if mode == DSOS_EXCL && s.R(h).ptrs != [] then Fail(s, DSOS_ERESOURCENOEXCL)
    else if s.R(h).kind == STANDARD_RESOURCE_TYPE then Finish(s, p, h, mode)
    else if SlotTaken(s.R(h), mode) then Fail(s, DSOS_ERESOURCEOPEN)
    else Finish(TakeSlot(s, h, mode, p), p, h, mode)
  }

  // ---------- close ----------

  /** mq_delete_mode clears the slot that the caller names, whatever the descriptor was opened for. */
  function ClearSlot(r: Resource, mode: int): Resource {
    r.(reader := if mode == DSOS_READ then NULL else r.reader,
       writer := if mode == DSOS_WRITE then NULL else r.writer)
  }

  /** The descriptor leaves its process and its resource, and both blocks are freed. */
  function Unlink(s: State, p: int, d: int): State {
    var desc := s.D(d);
    s.SetH(p, s.H(p).(descs := Remove(s.H(p).descs, d)))
     .SetR(desc.res, s.R(desc.res).(ptrs := Remove(s.R(desc.res).ptrs, desc.ptr)))
     .(freeDescs := [d] + s.freeDescs, freePtrs := [desc.ptr] + s.freePtrs)
  }

  function Close(s: State, p: int, fd: int, mode: int): Out {
    var d := ByFd(s, s.H(p).descs, fd);
    if d == NULL then Fail(s, DSOS_ERESOURCECLOSE)
    else
      var h := s.D(d).res;
      var t := if s.R(h).kind == STANDARD_RESOURCE_TYPE then s else s.SetR(h, ClearSlot(s.R(h), mode));
      Out(Unlink(t, p, d), Value(0), [])
  }

  /** The release of all descriptors in internal_exit, which clears no slot. */
  function Release(s: State, p: int): State
    decreases |s.H(p).descs|
  {
    if s.H(p).descs == [] || !(0 <= p < |s.holders|) then s else Release(Unlink(s, p, s.H(p).descs[0]), p)
  }

  /** PCB_alloc forgets the descriptors of the block's former process. */
  function Reset(s: State, p: int): State {
    s.SetH(p, Holder(0, []))
  }

  // ---------- destroy ----------

  /** The first message of the queue is freed; a read clears the links of its block, mq_free does not. */
  function Drop(s: State, h: int, stale: bool): State
    requires s.R(h).msgs != []
  {
    var b := s.R(h).msgs[0];
    s.SetR(h, s.R(h).(msgs := s.R(h).msgs[1..])).SetM(b, s.M(b).(stale := stale))
     .(freeMsgs := [b] + s.freeMsgs)
  }

  /** mq_free releases the blocks in queue order.  The links of a block in a queue are not null as
      soon as there are two blocks, and mq_free leaves them as they are. */
  function DropAll(s: State, h: int, stale: bool): State
    decreases |s.R(h).msgs|
  {
    if s.R(h).msgs == [] || !(0 <= h < |s.res|) then s else DropAll(Drop(s, h, stale), h, stale)
  }

  function Destroy(s: State, id: int): Out {
    var h := ById(s, s.listed, id);
    if h == NULL then Fail(s, DSOS_ERESOURCECLOSE)
    else if s.R(h).ptrs != [] then Fail(s, DSOS_ERESOURCEINUSE)
    else
      var t := DropAll(s.(listed := Remove(s.listed, h)), h, |s.R(h).msgs| >= 2);
      Out(if s.R(h).kind == MESSAGE_QUEUE_TYPE then t.(freeMq := [h] + t.freeMq)
          else t.(freeStd := [h] + t.freeStd), Value(0), [])
  }

  // ---------- messages ----------

  /** The queue that the descriptor names, or the error. */
  function QueueOf(s: State, p: int, fd: int): int {
    var d := ByFd(s, s.H(p).descs, fd);
    if d == NULL then DSOS_RESOURCENOTFOUND
    else if s.R(s.D(d).res).kind != MESSAGE_QUEUE_TYPE then DSOS_ERESOURCETYPEWRONG
    else s.D(d).res
  }

  /** Enqueues, unless the block that the pool hands out is stale: List_insert then refuses it. */
  function Put(s: State, h: int, text: seq<char>): State
    requires s.freeMsgs != []
  {
    var b := s.freeMsgs[0];
    var t := s.SetM(b, s.M(b).(text := text)).(freeMsgs := s.freeMsgs[1..]);
    if s.M(b).stale then t.(lost := [b] + t.lost)
    else t.SetR(h, t.R(h).(msgs := t.R(h).msgs + [b]))
  }

  predicate ValidLength(length: int) {
    0 <= length <= MESSAGE_STRING_MAX_LENGTH
  }

  /** With an empty message pool the source follows a null pointer; it reads `length` bytes. */
  predicate CanWrite(s: State, p: int, fd: int, buffer: seq<char>, length: int) {
    var h := QueueOf(s, p, fd);
    ValidLength(length) && h >= 0 && |s.R(h).msgs| != M_FOR_MQ ==> s.freeMsgs != [] && length <= |buffer|
  }

  function Write(s: State, p: int, fd: int, buffer: seq<char>, length: int): Out
    requires CanWrite(s, p, fd, buffer, length)
  {
    var h := QueueOf(s, p, fd);
    if !ValidLength(length) then Fail(s, DSOS_MESSAGELENGTHNOTVALID)
    else if h < 0 then Fail(s, h)
    else if |s.R(h).msgs| == M_FOR_MQ then Out(s, Unchanged, [])
    else Out(Put(s, h, buffer[..length]), Value(length), [])
  }

  function Read(s: State, p: int, fd: int, length: int): Out {
    var h := QueueOf(s, p, fd);
    if h < 0 then Fail(s, h)
    else if s.R(h).msgs == [] then
      Fail(s, if s.R(h).writer != NULL then DSOS_WAITINGFORMESSAGE else DSOS_MESSAGEQUEUEEMPTY)
    else
      var text := s.M(s.R(h).msgs[0]).text;
      if |text| > length then Fail(s, DSOS_MESSAGELENGTHNOTVALID)
      else Out(Drop(s, h, false), Value(|text|), text)
  }

  // ---------- steps and runs ----------

  datatype Op = OpenOp(p: int, id: int, kind: int, mode: int)
              | CloseOp(p: int, fd: int, mode: int)
              | DestroyOp(id: int)
              | WriteOp(p: int, fd: int, buffer: seq<char>, length: int)
              | ReadOp(p: int, fd: int, length: int)
              | ReleaseOp(p: int)
              | ResetOp(p: int)

  predicate IsProc(s: State, p: int) {
    0 <= p < |s.holders|
  }

  predicate CanStep(s: State, op: Op) {
    match op
    case OpenOp(p, id, kind, mode) => IsProc(s, p) && CanOpen(s, id, kind, mode)
    case CloseOp(p, _, _) => IsProc(s, p)
    case DestroyOp(_) => true
    case WriteOp(p, fd, buffer, length) => IsProc(s, p) && CanWrite(s, p, fd, buffer, length)
    case ReadOp(p, _, _) => IsProc(s, p)
    case ReleaseOp(p) => IsProc(s, p)
    case ResetOp(p) => IsProc(s, p)
  }

  /** The call takes a slot of a message queue. */
  predicate TakesSlot(s: State, op: Op) {
    op.OpenOp? && (op.mode == DSOS_READ || op.mode == DSOS_WRITE) &&
    var h := ById(s, s.listed, op.id);
    h != NULL && s.R(h).kind == op.kind == MESSAGE_QUEUE_TYPE && !SlotTaken(s.R(h), op.mode)
  }

  function Perform(s: State, op: Op): Out
    requires CanStep(s, op)
  {
    match op
    case OpenOp(p, id, kind, mode) => Open(s, p, id, kind, mode)
    case CloseOp(p, fd, mode) => Close(s, p, fd, mode)
    case DestroyOp(id) => Destroy(s, id)
    case WriteOp(p, fd, buffer, length) => Write(s, p, fd, buffer, length)
    case ReadOp(p, fd, length) => Read(s, p, fd, length)
    case ReleaseOp(p) => Out(Release(s, p), Value(0), [])
    case ResetOp(p) => Out(Reset(s, p), Value(0), [])
  }

  function Step(s: State, op: Op): State
    requires CanStep(s, op)
  {
    Perform(s, op).s
  }

  predicate ValidRun(s: State, ops: seq<Op>)
    decreases ops
  {
    ops == [] || (CanStep(s, ops[0]) && ValidRun(Step(s, ops[0]), ops[1..]))
  }

  function After(s: State, ops: seq<Op>): State
    requires ValidRun(s, ops)
    decreases ops
  {
    if ops == [] then s else After(Step(s, ops[0]), ops[1..])
  }
}
