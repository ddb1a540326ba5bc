/** What every run keeps about message blocks, and what a queue delivers. */
module Messages {
  import opened Sequences
  import opened ResourceModel

  // ---------- the invariant ----------

  ghost predicate Block(s: State, b: int) {
    0 <= b < |s.msgs|
  }

  /** A queued block is in use, in no other queue, and holds a short message. */
  ghost predicate Queued(s: State, b: int) {
    Block(s, b) && b !in s.freeMsgs && b !in s.lost && !s.M(b).stale && |s.M(b).text| <= MESSAGE_STRING_MAX_LENGTH
  }

  ghost predicate QueuesOk(s: State) {
    && (forall h, b {:trigger b in s.R(h).msgs} :: b in s.R(h).msgs ==> Queued(s, b))
    && (forall h :: Distinct(s.R(h).msgs) && |s.R(h).msgs| <= M_FOR_MQ)
  }

  ghost predicate NoSharedBlock(s: State) {
    forall h, k, b {:trigger b in s.R(h).msgs, b in s.R(k).msgs} :: b in s.R(h).msgs && b in s.R(k).msgs ==> h == k
  }

  ghost predicate FreeOk(s: State) {
    && Distinct(s.freeMsgs)
    && (forall b :: b in s.freeMsgs ==> Block(s, b) && b !in s.lost)
  }

  /** The number of queued messages. */
  function Total(res: seq<Resource>): nat {
    if res == [] then 0 else |res[0].msgs| + Total(res[1..])
  }

  /** No message block disappears. */
  ghost predicate Conserved(s: State) {
    |s.freeMsgs| + Total(s.res) + |s.lost| == |s.msgs|
  }

  ghost predicate MsgInv(s: State) {
    QueuesOk(s) && NoSharedBlock(s) && FreeOk(s) && Conserved(s)
  }

  // ---------- counting ----------

  lemma {:induction false} TotalUpdate(res: seq<Resource>, h: nat, r: Resource)
    requires h < |res|
    ensures Total(res[h := r]) == Total(res) - |res[h].msgs| + |r.msgs|
  {
    if h > 0 {
      assert res[h := r][1..] == res[1..][h - 1 := r];
      TotalUpdate(res[1..], h - 1, r);
    } else {
      assert res[h := r][1..] == res[1..];
    }
  }

  /** The queue of h changed and no other. */
  lemma TotalChange(s: State, t: State, h: int)
    requires 0 <= h < |s.res| && t.res == s.res[h := t.R(h)]
    ensures Total(t.res) == Total(s.res) - |s.R(h).msgs| + |t.R(h).msgs|
  {
    TotalUpdate(s.res, h, t.R(h));
  }

  lemma {:induction false} TotalSame(a: seq<Resource>, b: seq<Resource>)
    requires |a| == |b| && forall i :: 0 <= i < |a| ==> |a[i].msgs| == |b[i].msgs|
    ensures Total(a) == Total(b)
  {
    if a != [] {
      TotalSame(a[1..], b[1..]);
    }
  }

  // ---------- steps that move no message ----------

  ghost predicate SameMessages(s: State, t: State) {
    && t.msgs == s.msgs && t.freeMsgs == s.freeMsgs && t.lost == s.lost && |t.res| == |s.res|
    && forall h :: t.R(h).msgs == s.R(h).msgs
  }

  lemma SameMessagesKeep(s: State, t: State)
    requires MsgInv(s) && SameMessages(s, t)
    ensures MsgInv(t)
  {
    forall h, b | b in t.R(h).msgs ensures Queued(t, b) {
      assert b in s.R(h).msgs && Queued(s, b) && s.M(b) == t.M(b);
    }
    forall h ensures Distinct(t.R(h).msgs) && |t.R(h).msgs| <= M_FOR_MQ {
      assert Distinct(s.R(h).msgs) && |s.R(h).msgs| <= M_FOR_MQ;
    }
    assert forall i :: 0 <= i < |s.res| ==> s.res[i] == s.R(i) && t.res[i] == t.R(i);
    TotalSame(s.res, t.res);
  }

  // ---------- write ----------

  /** Block b moves from the pool to the end of queue h. */
  ghost predicate Enqueued(s: State, t: State, h: int, b: int, text: seq<char>) {
    && s.freeMsgs != [] && b == s.freeMsgs[0] && t.freeMsgs == s.freeMsgs[1..] && t.lost == s.lost
    && 0 <= h < |s.res| && t.res == s.res[h := t.R(h)] && t.R(h) == s.R(h).(msgs := s.R(h).msgs + [b])
    && |t.msgs| == |s.msgs| && !s.M(b).stale && t.M(b) == s.M(b).(text := text)
    && (forall x :: x != b ==> t.M(x) == s.M(x))
    && (forall k :: k != h ==> t.R(k) == s.R(k))
  }

  lemma PutEnqueues(s: State, h: int, text: seq<char>)
    requires FreeOk(s) && s.freeMsgs != [] && 0 <= h < |s.res| && !s.M(s.freeMsgs[0]).stale
    ensures Enqueued(s, Put(s, h, text), h, s.freeMsgs[0], text)
  {
    assert s.freeMsgs[0] in s.freeMsgs;
  }

  lemma EnqueuedFree(s: State, t: State, h: int, b: int, text: seq<char>)
    requires MsgInv(s) && Enqueued(s, t, h, b, text)
    ensures FreeOk(t) && b in s.freeMsgs && b !in t.freeMsgs
    ensures forall x :: x in t.freeMsgs ==> x in s.freeMsgs
    ensures Conserved(t)
  {
    TotalChange(s, t, h);
    assert b in s.freeMsgs && s.freeMsgs == [b] + t.freeMsgs;
    forall x | x in t.freeMsgs ensures x in s.freeMsgs && x != b {
      var i :| 0 <= i < |t.freeMsgs| && t.freeMsgs[i] == x;
      assert s.freeMsgs[i + 1] == x && s.freeMsgs[0] == b;
    }
  }

  lemma EnqueuedMembers(s: State, t: State, h: int, b: int, text: seq<char>)
    requires QueuesOk(s) && b in s.freeMsgs && Enqueued(s, t, h, b, text)
    ensures forall k, x {:trigger x in t.R(k).msgs} :: x in t.R(k).msgs <==> x in s.R(k).msgs || (k == h && x == b)
    ensures forall k {:trigger s.R(k)} :: b !in s.R(k).msgs
  {
    forall k ensures b !in s.R(k).msgs {
      assert b in s.R(k).msgs ==> Queued(s, b);
    }
  }

  lemma EnqueuedKeeps(s: State, t: State, h: int, b: int, text: seq<char>)
    requires MsgInv(s) && Enqueued(s, t, h, b, text)
    requires |text| <= MESSAGE_STRING_MAX_LENGTH && |s.R(h).msgs| < M_FOR_MQ
    ensures MsgInv(t)
  {
    EnqueuedFree(s, t, h, b, text);
    EnqueuedMembers(s, t, h, b, text);
    assert Block(s, b) && b !in s.lost;
    hide Conserved, FreeOk;
    forall k, x | x in t.R(k).msgs ensures Queued(t, x) {
      assert x in s.R(k).msgs ==> Queued(s, x);
    }
    forall k ensures Distinct(t.R(k).msgs) && |t.R(k).msgs| <= M_FOR_MQ {
      assert Distinct(s.R(k).msgs) && |s.R(k).msgs| <= M_FOR_MQ;
    }
  }

  /** List_insert refused the block: it is in use and in no queue. */
  ghost predicate Lost(s: State, t: State, b: int, text: seq<char>) {
    && s.freeMsgs != [] && b == s.freeMsgs[0] && t.freeMsgs == s.freeMsgs[1..] && t.lost == [b] + s.lost
    && t.res == s.res && |t.msgs| == |s.msgs| && (forall x :: x != b ==> t.M(x) == s.M(x))
  }

  lemma PutLoses(s: State, h: int, text: seq<char>)
    requires FreeOk(s) && s.freeMsgs != [] && s.M(s.freeMsgs[0]).stale
    ensures Lost(s, Put(s, h, text), s.freeMsgs[0], text)
  {
  }

  lemma LostKeeps(s: State, t: State, b: int, text: seq<char>)
    requires MsgInv(s) && Lost(s, t, b, text)
    ensures MsgInv(t)
  {
    assert b in s.freeMsgs && Block(s, b);
    forall x | x in t.freeMsgs ensures x in s.freeMsgs && x != b {
      var i :| 0 <= i < |t.freeMsgs| && t.freeMsgs[i] == x;
      assert s.freeMsgs[i + 1] == x && s.freeMsgs[0] == b;
    }
    assert forall k :: t.R(k) == s.R(k);
    forall k, x | x in t.R(k).msgs ensures Queued(t, x) {
      assert Queued(s, x);
    }
    assert forall k :: Distinct(s.R(k).msgs) && |s.R(k).msgs| <= M_FOR_MQ;
  }

  // ---------- read and destroy ----------

  /** The head block b of queue h goes back to the pool. */
  ghost predicate Dequeued(s: State, t: State, h: int, b: int, stale: bool) {
    && 0 <= h < |s.res| && s.R(h).msgs != [] && b == s.R(h).msgs[0]
    && t.freeMsgs == [b] + s.freeMsgs && t.lost == s.lost
    && t.res == s.res[h := t.R(h)] && t.R(h) == s.R(h).(msgs := s.R(h).msgs[1..])
    && |t.msgs| == |s.msgs| && t.M(b) == s.M(b).(stale := stale)
    && (forall x :: x != b ==> t.M(x) == s.M(x))
    && (forall k :: k != h ==> t.R(k) == s.R(k))
  }

  lemma DropDequeues(s: State, h: int, stale: bool)
    requires QueuesOk(s) && 0 <= h < |s.res| && s.R(h).msgs != []
    ensures Dequeued(s, Drop(s, h, stale), h, s.R(h).msgs[0], stale)
  {
    assert s.R(h).msgs[0] in s.R(h).msgs;
    assert Queued(s, s.R(h).msgs[0]);
  }

  lemma DequeuedMembers(s: State, t: State, h: int, b: int, stale: bool)
    requires QueuesOk(s) && NoSharedBlock(s) && Dequeued(s, t, h, b, stale)
    ensures Queued(s, b) && Distinct(t.R(h).msgs)
    ensures forall k, x {:trigger x in t.R(k).msgs} :: x in t.R(k).msgs ==> x in s.R(k).msgs && x != b
  {
    assert b in s.R(h).msgs && Distinct(s.R(h).msgs);
    forall x | x in t.R(h).msgs ensures x in s.R(h).msgs && x != b {
      var i :| 0 <= i < |t.R(h).msgs| && t.R(h).msgs[i] == x;
      assert s.R(h).msgs[i + 1] == x && s.R(h).msgs[0] == b;
    }
  }

  lemma DequeuedKeeps(s: State, t: State, h: int, b: int, stale: bool)
    requires MsgInv(s) && Dequeued(s, t, h, b, stale)
    ensures MsgInv(t)
  {
    TotalChange(s, t, h);
    DequeuedMembers(s, t, h, b, stale);
    forall k, x | x in t.R(k).msgs ensures Queued(t, x) {
      assert x in s.R(k).msgs && Queued(s, x);
    }
    forall k ensures Distinct(t.R(k).msgs) && |t.R(k).msgs| <= M_FOR_MQ {
      assert Distinct(s.R(k).msgs) && |s.R(k).msgs| <= M_FOR_MQ;
    }
  }

  /** The message blocks of queue h are all back in the pool, and nothing else happened. */
  ghost predicate Emptied(s: State, t: State, h: int, stale: bool) {
    && t.R(h) == s.R(h).(msgs := []) && (forall k :: k != h ==> t.R(k) == s.R(k)) && |t.res| == |s.res|
    && t.lost == s.lost && |t.msgs| == |s.msgs|
    && (forall b :: b in t.freeMsgs <==> b in s.freeMsgs || b in s.R(h).msgs)
    && (forall b :: t.M(b) == if b in s.R(h).msgs then s.M(b).(stale := stale) else s.M(b))
  }

  /** No field but the queues and the message pool differs. */
  ghost predicate SameTables(s: State, t: State) {
    && t.descs == s.descs && t.backs == s.backs && t.freeDescs == s.freeDescs && t.freePtrs == s.freePtrs
    && t.holders == s.holders && t.listed == s.listed && t.freeStd == s.freeStd && t.freeMq == s.freeMq
  }

  lemma EmptiedMore(s: State, t: State, u: State, h: int, b: int, stale: bool)
    requires Dequeued(s, t, h, b, stale) && Emptied(t, u, h, stale)
    ensures Emptied(s, u, h, stale)
  {
    assert s.R(h).msgs == [b] + t.R(h).msgs;
  }

  lemma {:induction false} DropAllKeeps(s: State, h: int, stale: bool)
    requires MsgInv(s) && 0 <= h < |s.res|
    ensures MsgInv(DropAll(s, h, stale)) && Emptied(s, DropAll(s, h, stale), h, stale)
    ensures SameTables(s, DropAll(s, h, stale))
    decreases |s.R(h).msgs|
  {
    if s.R(h).msgs != [] {
      var b := s.R(h).msgs[0];
      DropDequeues(s, h, stale);
      DequeuedKeeps(s, Drop(s, h, stale), h, b, stale);
      DropAllKeeps(Drop(s, h, stale), h, stale);
      EmptiedMore(s, Drop(s, h, stale), DropAll(s, h, stale), h, b, stale);
    }
  }
}
