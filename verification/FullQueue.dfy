/** A run in which a process is told that a message was sent that no queue has taken: the queue is full, and
    the result of the previous write is still in the register. */
module FullQueue {
  import P = ProcessModel
  import R = ResourceModel
  import D = Delivery
  import opened WholeSystem
  import opened Reports

  const FULL := R.M_FOR_MQ

  const Create := ResourceOp(R.OpenOp(0, 7, R.MESSAGE_QUEUE_TYPE, R.DSOS_CREATE), 0)
  const WriteA := ResourceOp(R.WriteOp(0, 0, "a", 1), 1)
  const WriteB := ResourceOp(R.WriteOp(0, 0, "b", 1), 1)
  const Start := Boot(1, 0, 1, 1, FULL)

  /** The only process, after a call with these registers. */
  function Caller(num: int, arg0: int, arg1: int, result: int): P.State {
    P.State(0, 1, 0, 0, [], [], [], [], [], 1,
            [P.Proc(0, 0, P.Running, P.NULL, [], P.NULL, num, arg0, arg1, result)], map[])
  }

  /** The queue holds the blocks 0 to k - 1, each with the message "a". */
  function Queued(k: nat): R.State
    requires k <= FULL
  {
    R.State([R.Resource(7, R.MESSAGE_QUEUE_TYPE, [0], seq(k, i => i), R.NULL, R.NULL)], [0], [], [],
            [R.Descriptor(0, 0, 0, 0, R.DSOS_CREATE)], [0], [], [], [R.Holder(1, [0])],
            seq(FULL, i => if i < k then R.Message("a", false) else R.Message([], false)),
            seq(FULL - k, i => k + i), [])
  }

  function Filled(k: nat): System
    requires k <= FULL
  {
    if k == 0 then System(Caller(DSOS_CALL_OPEN_RESOURCE, 7, R.MESSAGE_QUEUE_TYPE, 0), Queued(0))
    else System(Caller(DSOS_CALL_MESSAGE_QUEUE_WRITE, 0, 1, 1), Queued(k))
  }

  ghost predicate Goes(s: System, o: Op, t: System) {
    CanDo(s, o) && Do(s, o) == t
  }

  lemma Creation()
    ensures Goes(Start, Create, Filled(0)) && Creates(Start, Create, 0)
  {
    var t := Do(Start, Create);
    assert t.rs.res[0].ptrs == [0] && t.rs.holders[0].descs == [0] && t.rs.listed == [0];
    assert t.rs == Queued(0);
    assert t.ps == Filled(0).ps;
  }

  lemma MoreQueued(k: nat)
    requires k < FULL
    ensures R.CanWrite(Queued(k), 0, 0, "a", 1)
    ensures R.Write(Queued(k), 0, 0, "a", 1) == R.Out(Queued(k + 1), R.Value(1), [])
  {
    var s, t := Queued(k), Queued(k + 1);
    assert R.QueueOf(s, 0, 0) == 0;
    var u := R.Put(s, 0, "a");
    assert s.freeMsgs[0] == k && u.freeMsgs == t.freeMsgs && u.msgs == t.msgs;
    assert u.res[0].msgs == t.res[0].msgs;
    assert u.res == t.res;
    assert "a"[..1] == "a";
  }

  lemma WritesQueued(k: nat)
    requires k < FULL
    ensures Goes(Filled(k), WriteA, Filled(k + 1))
    ensures !Rough(Filled(k), WriteA) && Got(Filled(k), WriteA, 0) == []
    ensures |Told(Filled(k), WriteA, 0)| == 1
  {
    MoreQueued(k);
    assert R.QueueOf(Queued(k), 0, 0) == 0;
    hide R.Write, R.CanWrite, R.QueueOf, Queued;
    assert Do(Filled(k), WriteA).ps == Filled(k + 1).ps;
  }

  /** After the last write only the exit value of the process has changed. */
  const Dropped := System(Caller(DSOS_CALL_MESSAGE_QUEUE_WRITE, 0, 1, 1).(procs :=
    [P.Proc(0, R.DSOS_MESSAGEQUEUEFULL, P.Running, P.NULL, [], P.NULL, DSOS_CALL_MESSAGE_QUEUE_WRITE, 0, 1, 1)]),
    Queued(FULL))

  lemma LastWrite()
    ensures Goes(Filled(FULL), WriteB, Dropped) && Brushed(Filled(FULL), WriteB, 0)
    ensures !Rough(Filled(FULL), WriteB) && Got(Filled(FULL), WriteB, 0) == []
    ensures Result(Filled(FULL), WriteB) == 1 && Told(Filled(FULL), WriteB, 0) == ["b"]
  {
    var s := Queued(FULL);
    assert R.QueueOf(s, 0, 0) == 0 && |s.R(0).msgs| == R.M_FOR_MQ;
    assert R.Write(s, 0, 0, "b", 1) == R.Out(s, R.Unchanged, []);
    hide R.QueueOf, Queued;
    assert "b"[..1] == "b";
  }

  /** n writes of "a", and then one of "b". */
  function Writes(n: nat): seq<Op> {
    if n == 0 then [WriteB] else [WriteA] + Writes(n - 1)
  }

  lemma {:induction false} FillsAndDrops(k: nat)
    requires k <= FULL
    ensures var s, ops := Filled(k), Writes(FULL - k);
            ValidRun(s, ops) && After(s, ops) == Dropped && Gentle(s, ops) && Lives(s, ops, 0)
    decreases FULL - k
  {
    var n := FULL - k;
    ListedThroughout(k);
    hide CanDo, Do, Told, Got, Brushed, Rough, Filled, Dropped;
    if k == FULL {
      LastWrite();
      assert Writes(0)[1..] == [];
    } else {
      WritesQueued(k);
      FillsAndDrops(k + 1);
      assert Writes(n) == [WriteA] + Writes(n - 1) && Writes(n)[1..] == Writes(n - 1);
    }
  }

  lemma {:induction false} ToldOfAll(k: nat)
    requires k <= FULL && ValidRun(Filled(k), Writes(FULL - k))
    ensures var s, ops := Filled(k), Writes(FULL - k);
            SomeBrushed(s, ops, 0) && AllGot(s, ops, 0) == [] && |AllTold(s, ops, 0)| == FULL - k + 1
    decreases FULL - k
  {
    var n := FULL - k;
    hide CanDo, Do, Told, Got, Brushed, Rough, Filled, Dropped;
    if k == FULL {
      LastWrite();
      assert Writes(0)[1..] == [];
    } else {
      WritesQueued(k);
      assert Writes(n) == [WriteA] + Writes(n - 1) && Writes(n)[1..] == Writes(n - 1);
      ToldOfAll(k + 1);
    }
  }

  lemma ListedThroughout(k: nat)
    requires k <= FULL
    ensures 0 in Filled(k).rs.listed && 0 in Dropped.rs.listed
  {
  }

  lemma Begins(s: System, create: Op, t: System, ops: seq<Op>, h: int)
    requires Goes(s, create, t) && Creates(s, create, h) && ValidRun(t, ops) && Gentle(t, ops) && Lives(t, ops, h)
    ensures History(s, [], create, ops, h) && Created(s, [], create, ops, h) == t
  {
    hide CanDo, Do, Creates;
  }

  lemma AllQueued()
    ensures |D.Texts(Dropped.rs, 0)| == 128
  {
    assert |Dropped.rs.R(0).msgs| == 128;
  }

  /** The kernel accepts a run from the start, without a rough destruction, in which a queue is created and 129
      writes to it report success; 128 messages are in the queue and none has been read. */
  lemma MessageIsDropped()
    ensures History(Start, [], Create, Writes(FULL), 0)
    ensures var s := Created(Start, [], Create, Writes(FULL), 0);
            && |AllTold(s, Writes(FULL), 0)| == 129 && AllGot(s, Writes(FULL), 0) == []
            && |D.Texts(After(s, Writes(FULL)).rs, 0)| == 128
  {
    assert FULL == 128;
    hide *;
    Creation();
    FillsAndDrops(0);
    ToldOfAll(0);
    Begins(Start, Create, Filled(0), Writes(FULL), 0);
    AllQueued();
  }
}
