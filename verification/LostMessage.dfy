/** A run in which a write reports success and the message is lost: a queue is destroyed with two
    messages in it, and their blocks go back to the pool with their links. */
module LostMessage {
  import opened Sequences
  import opened ResourceModel
  import opened ResourceSteps

  const A := Message("a", false)
  const B := Message("b", false)
  const None := Message([], false)
  const Open1 := Descriptor(0, 0, 0, 0, DSOS_CREATE)
  const Open2 := Descriptor(0, 0, 1, 0, DSOS_CREATE)

  function Queue(ptrs: seq<int>, msgs: seq<int>): Resource {
    Resource(7, MESSAGE_QUEUE_TYPE, ptrs, msgs, NULL, NULL)
  }

  function At(r: Resource, listed: seq<int>, freeMq: seq<int>, d: Descriptor, freeDescs: seq<int>, h: Holder,
              msgs: seq<Message>, freeMsgs: seq<int>, lost: seq<int>, back: int): State
  {
    State([r], listed, [], freeMq, [d], [back], freeDescs, freeDescs, [h], msgs, freeMsgs, lost)
  }

  const S0 := At(NoResource, [], [0], UnusedDescriptor, [0], Holder(0, []), [None, None], [0, 1], [], NULL)
  const S1 := At(Queue([0], []), [0], [], Open1, [], Holder(1, [0]), [None, None], [0, 1], [], 0)
  const S2 := At(Queue([0], [0]), [0], [], Open1, [], Holder(1, [0]), [A, None], [1], [], 0)
  const S3 := At(Queue([0], [0, 1]), [0], [], Open1, [], Holder(1, [0]), [A, B], [], [], 0)
  const S4 := At(Queue([], [0, 1]), [0], [], Open1, [0], Holder(1, []), [A, B], [], [], 0)
  const S5 := At(Queue([], []), [], [0], Open1, [0], Holder(1, []),
                 [Message("a", true), Message("b", true)], [1, 0], [], 0)
  const S6 := At(Queue([0], []), [0], [], Open2, [], Holder(2, [0]),
                 [Message("a", true), Message("b", true)], [1, 0], [], 0)
  const S7 := At(Queue([0], []), [0], [], Open2, [], Holder(2, [0]),
                 [Message("a", true), Message("c", true)], [0], [1], 0)

  ghost predicate Goes(s: State, op: Op, t: State) {
    CanStep(s, op) && Step(s, op) == t
  }

  lemma Booted()
    ensures Boot(0, 1, 1, 1, 2) == S0
  {
  }

  lemma Create1()
    ensures Goes(S0, OpenOp(0, 7, MESSAGE_QUEUE_TYPE, DSOS_CREATE), S1)
  {
    var t := Step(S0, OpenOp(0, 7, MESSAGE_QUEUE_TYPE, DSOS_CREATE));
    assert t.res[0].ptrs == [0] && t.holders[0].descs == [0] && t.listed == [0];
    assert t.res == S1.res && t.descs == S1.descs && t.holders == S1.holders;
  }

  lemma Write2()
    ensures Goes(S1, WriteOp(0, 0, "a", 1), S2)
  {
    assert QueueOf(S1, 0, 0) == 0;
    hide QueueOf;
    var t := Step(S1, WriteOp(0, 0, "a", 1));
    assert t.res[0].msgs == [0] && t.msgs[0].text == "a";
    assert t.res == S2.res && t.msgs == S2.msgs && t.freeMsgs == S2.freeMsgs;
  }

  lemma Write3()
    ensures Goes(S2, WriteOp(0, 0, "b", 1), S3)
  {
    assert QueueOf(S2, 0, 0) == 0;
    hide QueueOf;
    var t := Step(S2, WriteOp(0, 0, "b", 1));
    assert t.res[0].msgs == [0, 1] && t.msgs[1].text == "b";
    assert t.res == S3.res && t.msgs == S3.msgs && t.freeMsgs == S3.freeMsgs;
  }

  lemma Close4()
    ensures Goes(S3, CloseOp(0, 0, 0), S4)
  {
    var t := Step(S3, CloseOp(0, 0, 0));
    assert Remove([0], 0) == [];
    assert t.res == S4.res && t.holders == S4.holders;
  }

  lemma Destroy5()
    ensures Goes(S4, DestroyOp(7), S5)
  {
    var u := S4.(listed := []);
    assert Remove([0], 0) == [];
    var v := At(Queue([], [1]), [], [], Open1, [0], Holder(1, []), [Message("a", true), B], [0], [], 0);
    var w := At(Queue([], []), [], [], Open1, [0], Holder(1, []),
                 [Message("a", true), Message("b", true)], [1, 0], [], 0);
    assert Drop(u, 0, true) == v by {
      assert Drop(u, 0, true).res[0].msgs == [1];
      assert Drop(u, 0, true).res == v.res && Drop(u, 0, true).msgs == v.msgs;
    }
    assert Drop(v, 0, true) == w by {
      assert Drop(v, 0, true).res[0].msgs == [];
      assert Drop(v, 0, true).res == w.res && Drop(v, 0, true).msgs == w.msgs;
      assert Drop(v, 0, true).freeMsgs == w.freeMsgs;
    }
    hide Drop;
    assert DropAll(w, 0, true) == w;
    assert DropAll(v, 0, true) == w;
    assert DropAll(u, 0, true) == w;
  }

  lemma Create6()
    ensures Goes(S5, OpenOp(0, 7, MESSAGE_QUEUE_TYPE, DSOS_CREATE), S6)
  {
    var u := At(Queue([], []), [0], [], Open1, [0], Holder(1, []), S5.msgs, [1, 0], [], 0);
    assert NewResource(S5, 7, MESSAGE_QUEUE_TYPE) == u by {
      assert NewResource(S5, 7, MESSAGE_QUEUE_TYPE).res == u.res;
    }
    hide NewResource;
    Linked6(u);
  }

  lemma Linked6(u: State)
    requires u == At(Queue([], []), [0], [], Open1, [0], Holder(1, []), S5.msgs, [1, 0], [], 0)
    ensures Finish(u, 0, 0, DSOS_CREATE).s == S6
  {
    var t := Link(u, 0, 0, DSOS_CREATE);
    assert t.res[0].ptrs == [0] && t.holders[0].descs == [0];
    assert t.res == S6.res && t.descs == S6.descs && t.holders == S6.holders && t.backs == S6.backs;
  }

  /** The write reports one character, and the queue is as empty as before. */
  lemma Write7()
    ensures Goes(S6, WriteOp(0, 1, "c", 1), S7) && Perform(S6, WriteOp(0, 1, "c", 1)).ret == Value(1)
    ensures Perform(S7, ReadOp(0, 1, 128)).ret == Value(DSOS_MESSAGEQUEUEEMPTY)
  {
    var t := Step(S6, WriteOp(0, 1, "c", 1));
    assert QueueOf(S6, 0, 1) == 0;
    assert t.msgs[1].text == "c";
    assert t.msgs == S7.msgs && t.freeMsgs == S7.freeMsgs;
  }

  lemma Prepend(s: State, op: Op, t: State, ops: seq<Op>, end: State) returns (r: seq<Op>)
    requires Goes(s, op, t) && ValidRun(t, ops) && After(t, ops) == end
    ensures ValidRun(s, r) && After(s, r) == end && r == [op] + ops
  {
    r := [op] + ops;
    assert r[1..] == ops;
  }

  /** The kernel accepts a run from the initial state after which a queue has lost a message: exactly one
      message was reported as sent since the queue was created, and none was read or is in the queue. */
  lemma MessageCanBeLost() returns (ops: seq<Op>)
    ensures ValidRun(Boot(0, 1, 1, 1, 2), ops) && After(Boot(0, 1, 1, 1, 2), ops) == S6
    ensures CanStep(S6, WriteOp(0, 1, "c", 1)) && Step(S6, WriteOp(0, 1, "c", 1)) == S7
    ensures Perform(S6, WriteOp(0, 1, "c", 1)).ret == Value(1)
    ensures Perform(S7, ReadOp(0, 1, 128)).ret == Value(DSOS_MESSAGEQUEUEEMPTY)
  {
    Write7();
    hide CanStep, Step, Perform;
    Booted(); Create1(); Write2(); Write3(); Close4(); Destroy5(); Create6();
    ops := [];
    hide Boot;
    ops := Prepend(S5, OpenOp(0, 7, MESSAGE_QUEUE_TYPE, DSOS_CREATE), S6, ops, S6);
    ops := Prepend(S4, DestroyOp(7), S5, ops, S6);
    ops := Prepend(S3, CloseOp(0, 0, 0), S4, ops, S6);
    ops := Prepend(S2, WriteOp(0, 0, "b", 1), S3, ops, S6);
    ops := Prepend(S1, WriteOp(0, 0, "a", 1), S2, ops, S6);
    ops := Prepend(S0, OpenOp(0, 7, MESSAGE_QUEUE_TYPE, DSOS_CREATE), S1, ops, S6);
  }
}
