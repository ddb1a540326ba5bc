/** Message blocks and the message lists of the queues (disastrOS_message_queue.c): one list head per
    queue block, over the list items of the message blocks, which come from one shared pool. */
module MessageStore {
  import opened Sequences
  import opened LinkedList
  import opened Pools
  import RM = ResourceModel

  const SIZEOF_MESSAGE := 148
  const MAX := RM.MESSAGE_STRING_MAX_LENGTH

  class Message {
    const list: ListItem
    const msg: array<char>
    var length: int

    constructor (idx: nat)
      ensures list.idx == idx && list.prev == null && list.next == null && list.owner == null
      ensures fresh(list) && fresh(msg) && msg.Length == MAX && length == 0
    {
      list := new ListItem(idx);
      msg := new char[MAX];
      length := 0;
    }
  }

  /** The free blocks once the blocks of q have been released one by one. */
  function ReleasedAll(free: seq<int>, q: seq<int>): seq<int>
    decreases q
  {
    if q == [] then free else ReleasedAll([q[0]] + free, q[1..])
  }

  /** The blocks of q, now free, keep links that are not null when `stale`. */
  ghost function Marked(records: seq<RM.Message>, q: seq<int>, stale: bool): (r: seq<RM.Message>)
    ensures |r| == |records|
    ensures forall b :: 0 <= b < |r| ==> r[b] == if b in q then records[b].(stale := stale) else records[b]
  {
    seq(|records|, b requires 0 <= b < |records| => if b in q then records[b].(stale := stale) else records[b])
  }

  lemma ReleasedStep(free: seq<int>, q: seq<int>, i: nat)
    requires i < |q|
    ensures ReleasedAll([q[i]] + free, q[i + 1..]) == ReleasedAll(free, q[i..])
  {
    assert q[i..][0] == q[i] && q[i..][1..] == q[i + 1..];
  }

  lemma {:induction false} ReleasedMembers(free: seq<int>, q: seq<int>)
    ensures forall b :: b in ReleasedAll(free, q) <==> b in free || b in q
    decreases q
  {
    if q != [] {
      ReleasedMembers([q[0]] + free, q[1..]);
      assert q == [q[0]] + q[1..];
    }
  }

  lemma ReleasedNone(free: seq<int>, q: seq<int>)
    ensures ReleasedAll(free, q[|q|..]) == free
  {
    assert q[|q|..] == [];
  }

  /** The i-th block is not among the ones before it. */
  lemma Fresher(q: seq<int>, i: nat)
    requires Distinct(q) && i < |q|
    ensures q[i] !in q[..i] && q[i] in q && q[..i + 1] == q[..i] + [q[i]]
    ensures forall j :: i < j < |q| ==> q[j] != q[i]
  {
  }

  ghost predicate QueuedIn(queues: seq<seq<int>>, b: int) {
    exists h :: 0 <= h < |queues| && b in queues[h]
  }

  lemma QueuedAppended(queues: seq<seq<int>>, h: int, b: int)
    requires 0 <= h < |queues|
    ensures forall c: int :: QueuedIn(queues[h := queues[h] + [b]], c) <==> QueuedIn(queues, c) || c == b
  {
    var after := queues[h := queues[h] + [b]];
    assert forall k :: 0 <= k < |queues| && k != h ==> after[k] == queues[k];
    assert b in after[h];
    forall c: int | QueuedIn(queues, c) ensures QueuedIn(after, c) {
      var k :| 0 <= k < |queues| && c in queues[k];
      assert c in after[k];
    }
  }

  /** The first block leaves; no other queue has it and its queue has it once. */
  lemma QueuedTail(queues: seq<seq<int>>, h: int)
    requires 0 <= h < |queues| && queues[h] != [] && Distinct(queues[h])
    requires forall k :: 0 <= k < |queues| && k != h ==> queues[h][0] !in queues[k]
    ensures forall c: int :: QueuedIn(queues[h := queues[h][1..]], c) <==> QueuedIn(queues, c) && c != queues[h][0]
  {
    var after := queues[h := queues[h][1..]];
    assert queues[h] == [queues[h][0]] + after[h];
    assert forall k :: 0 <= k < |queues| && k != h ==> after[k] == queues[k];
    forall c: int | QueuedIn(queues, c) && c != queues[h][0] ensures QueuedIn(after, c) {
      var k :| 0 <= k < |queues| && c in queues[k];
      assert c in after[k];
    }
    forall c: int | QueuedIn(after, c) ensures QueuedIn(queues, c) {
      var k :| 0 <= k < |queues| && c in after[k];
      assert c in queues[k];
    }
  }

  lemma QueuedEmptied(queues: seq<seq<int>>, h: int)
    requires 0 <= h < |queues|
    requires forall k, b: int :: 0 <= k < |queues| && k != h && b in queues[k] ==> b !in queues[h]
    ensures forall c: int :: QueuedIn(queues[h := []], c) <==> QueuedIn(queues, c) && c !in queues[h]
  {
    var after := queues[h := []];
    assert forall k :: 0 <= k < |queues| && k != h ==> after[k] == queues[k];
    forall c: int | QueuedIn(queues, c) && c !in queues[h] ensures QueuedIn(after, c) {
      var k :| 0 <= k < |queues| && c in queues[k];
      assert c in after[k];
    }
    forall c: int | QueuedIn(after, c) ensures QueuedIn(queues, c) && c !in queues[h] {
      var k :| 0 <= k < |queues| && c in after[k];
      assert c in queues[k];
    }
  }

  ghost predicate ChainedAt(items: seq<ListItem>, q: seq<int>, i: int)
    requires 0 <= i < |q| == |items|
    reads items
  {
    items[i].idx == q[i] && items[i].next == if i + 1 == |q| then null else items[i + 1]
  }

  /** The items are the headers of the blocks of q and point to their successors. */
  ghost predicate Chained(items: seq<ListItem>, q: seq<int>)
    reads items
  {
    |items| == |q| && forall i :: 0 <= i < |q| ==> ChainedAt(items, q, i)
  }

  lemma ChainAt(items: seq<ListItem>, q: seq<int>, i: nat)
    requires Chained(items, q) && i < |q|
    ensures |items| == |q| && items[i].idx == q[i]
    ensures items[i].next == if i + 1 == |q| then null else items[i + 1]
  {
    assert ChainedAt(items, q, i);
  }

  class Store {
    const heads: seq<ListHead>
    const blocks: seq<Message>
    const pool: PoolAllocator
    ghost const links: array<int>
    ghost const Repr: set<object>
    ghost var queues: seq<seq<int>>        // the blocks in each queue, none in a queue that is not live
    ghost var live: set<int>               // the queues that are allocated
    ghost var records: seq<RM.Message>

    ghost predicate Shape() {
      && {this, pool, links} <= Repr && (forall h :: h in heads ==> h in Repr)
      && (forall m :: m in blocks ==> m in Repr && m.list in Repr && m.msg in Repr)
      && (forall i :: 0 <= i < |blocks| ==> blocks[i].list.idx == i && blocks[i].msg.Length == MAX)
      && (forall i, j :: 0 <= i < j < |blocks| ==> blocks[i].msg != blocks[j].msg)
      && (forall i, j :: 0 <= i < j < |heads| ==> heads[i] != heads[j])
    }

    /** The items of the list are the headers of the blocks of q. */
    ghost predicate ListIs(head: ListHead, q: seq<int>)
      reads head, head.items
    {
      && head.Valid() && |head.items| == |q|
      && forall i :: 0 <= i < |q| ==> 0 <= q[i] < |blocks| && head.items[i] == blocks[q[i]].list
    }

    ghost predicate ListsOk()
      reads this, Repr
    {
      && Shape() && |queues| == |heads|
      && (forall h :: h in live ==> 0 <= h < |heads| && InRepr(heads[h]) && ListIs(heads[h], queues[h]))
      && (forall h :: 0 <= h < |heads| && h !in live ==> queues[h] == [])
    }

    ghost predicate TextIs(m: Message, text: seq<char>)
      reads m, m.msg
    {
      0 <= m.length <= m.msg.Length && m.msg[..m.length] == text
    }

    ghost predicate InRepr(head: ListHead)
      reads head
    {
      head in Repr && forall x :: x in head.items ==> x in Repr
    }

    ghost predicate TextsOk()
      reads this, Repr
    {
      Shape() && |records| == |blocks| && forall b :: 0 <= b < |blocks| ==> TextIs(blocks[b], records[b].text)
    }

    ghost predicate Queued(b: int)
      reads this
    {
      QueuedIn(queues, b)
    }

    ghost predicate Unlinked(item: ListItem)
      reads item
    {
      item.prev == null && item.next == null
    }

    /** Only a block outside every queue can be stale: it then has a neighbour. */
    ghost predicate StaleOk()
      reads this, Repr
    {
      && Shape() && |records| == |blocks|
      && forall b :: 0 <= b < |blocks| ==>
           if Queued(b) then !records[b].stale else records[b].stale <==> !Unlinked(blocks[b].list)
    }

    ghost predicate PoolOk()
      reads this, pool, links
    {
      && pool.freeList == links && pool.Valid() && pool.sizeMax == |blocks|
      && forall b :: Queued(b) ==> b !in pool.free
    }

    ghost predicate Valid()
      reads this, Repr
    {
      ListsOk() && TextsOk() && StaleOk() && PoolOk()
    }

    constructor (hs: seq<ListHead>, bs: seq<Message>, p: PoolAllocator)
      requires p.Valid() && p.sizeMax == |bs| && p.free == seq(|bs|, i => i)
      requires forall i :: 0 <= i < |bs| ==> NewBlock(bs[i], i)
      requires forall i, j :: 0 <= i < j < |bs| ==> bs[i].msg != bs[j].msg
      requires forall i, j :: 0 <= i < j < |hs| ==> hs[i] != hs[j]
      ensures Valid() && heads == hs && blocks == bs && pool == p
      ensures queues == seq(|hs|, _ => []) && live == {} && records == seq(|bs|, _ => RM.Message([], false))
      ensures Repr == {this} + Objects(hs, bs, p, p.freeList)
    {
      heads, blocks, pool, links := hs, bs, p, p.freeList;
      queues, live, records := seq(|hs|, _ => []), {}, seq(|bs|, _ => RM.Message([], false));
      Repr := {this} + Objects(hs, bs, p, p.freeList);
      new;
      hide PoolAllocator.Valid, ListIs, InRepr;
      assert Shape();
    }

    // ---------- m_alloc and m_free ----------

    /** Copies the first `length` characters of src into block b. */
    method Fill(b: int, src: seq<char>, length: int)
      requires Shape() && 0 <= b < |blocks| && 0 <= length <= MAX && length <= |src|
      modifies blocks[b], blocks[b].msg
      ensures TextIs(blocks[b], src[..length])
    {
      var m := blocks[b];
      for i := 0 to length
        invariant m.msg[..i] == src[..i]
        modifies m.msg
      {
        m.msg[i] := src[i];
        assert src[..i + 1] == src[..i] + [src[i]];
      }
      m.length := length;
    }

    /** m_alloc.  A message that is too long costs a block. */
    method MAlloc(src: seq<char>, length: int) returns (b: int)
      requires Valid() && 0 <= length && (length <= MAX ==> length <= |src|)
      modifies this`records, pool, links, blocks, set m | m in blocks :: m.msg
      ensures Valid()
      ensures old(pool.free) == [] ==> b == -1 && pool.free == [] && records == old(records)
      ensures old(pool.free) != [] && length > MAX ==>
                b == -1 && pool.free == old(pool.free)[1..] && records == old(records)
      ensures old(pool.free) != [] && length <= MAX ==>
                && 0 <= b < |blocks| && b == old(pool.free)[0] && pool.free == old(pool.free)[1..]
                && records == old(records)[b := old(records)[b].(text := src[..length])]
                && b !in pool.free && !Queued(b)
    {
      hide ListHead.Valid, ListIs, PoolAllocator.Valid;
      ghost var free := pool.free;
      assert free != [] ==> free[0] in free;
      b := pool.Alloc();
      assert forall x: int :: x in pool.free ==> x in free;
      if b == -1 {
        return;
      }
      if length > MAX {
        return -1;
      }
      Fill(b, src, length);
      records := records[b := records[b].(text := src[..length])];
    }

    /** m_free of a block that is in no queue. */
    method MFree(b: int) returns (r: PoolResult)
      requires Valid() && 0 <= b < |blocks| && b !in pool.free && !Queued(b)
      modifies pool, links
      ensures Valid() && r == Success && pool.free == [b] + old(pool.free)
    {
      hide ListHead.Valid, ListIs, PoolAllocator.Valid, Queued;
      r := pool.Free(b);
    }

    // ---------- the lists ----------

    lemma ListAt(h: int)
      requires ListsOk() && h in live
      ensures 0 <= h < |heads| && ListIs(heads[h], queues[h]) && heads[h].Valid() && heads[h] in Repr
      ensures |heads[h].items| == |queues[h]| && forall x :: x in heads[h].items ==> x in Repr
      ensures forall i :: 0 <= i < |queues[h]| ==>
                0 <= queues[h][i] < |blocks| && heads[h].items[i] == blocks[queues[h][i]].list
    {
    }

    /** Lists share no item, no block is in two queues or twice in one. */
    lemma Apart(h: int)
      requires ListsOk() && h in live
      ensures forall k, x :: k in live && k != h && x in heads[k].items ==> x !in heads[h].items
      ensures forall k, b: int :: 0 <= k < |queues| && k != h && b in queues[k] ==> b !in queues[h]
      ensures Distinct(queues[h])
    {
      hide ListHead.Valid;
      ListAt(h);
      heads[h].OwnsItems();
      assert Distinct(heads[h].items) by { ItemsDistinct(heads[h]); }
      forall k, x | k in live && k != h && x in heads[k].items ensures x !in heads[h].items {
        ListAt(k);
        heads[k].OwnsItems();
      }
      forall k, b: int | 0 <= k < |queues| && k != h && b in queues[k] ensures b !in queues[h] {
        HeaderListed(k, b);
        if b in queues[h] { HeaderListed(h, b); }
      }
    }

    lemma HeaderListed(h: int, b: int)
      requires ListsOk() && 0 <= h < |queues| && b in queues[h]
      ensures h in live && 0 <= b < |blocks| && blocks[b].list in heads[h].items
    {
      ListAt(h);
      var i :| 0 <= i < |queues[h]| && queues[h][i] == b;
    }

    lemma ItemsDistinct(head: ListHead)
      requires head.Valid()
      ensures Distinct(head.items)
    {
    }

    /** A block outside a queue has its header outside the list. */
    lemma LooseItem(k: int, b: int)
      requires ListsOk() && 0 <= b < |blocks| && k in live
      ensures blocks[b].list in heads[k].items <==> b in queues[k]
    {
      hide ListHead.Valid;
      ListAt(k);
      if b in queues[k] { HeaderListed(k, b); }
      if blocks[b].list in heads[k].items {
        var i :| 0 <= i < |heads[k].items| && heads[k].items[i] == blocks[b].list;
        assert blocks[queues[k][i]].list.idx == queues[k][i];
        assert queues[k][i] == b;
      }
    }

    lemma LooseItems(b: int)
      requires ListsOk() && 0 <= b < |blocks| && !Queued(b)
      ensures forall k :: k in live ==> blocks[b].list !in heads[k].items
    {
      forall k | k in live ensures blocks[b].list !in heads[k].items {
        LooseItem(k, b);
      }
    }

    method InsertLast(h: int, b: int) returns (accepted: bool)
      requires ListsOk() && h in live && 0 <= b < |blocks| && !Queued(b)
      modifies heads[h], blocks[b].list, heads[h].items
      ensures accepted == old(Unlinked(blocks[b].list))
      ensures forall k :: k in live && k != h ==> heads[k].items == old(heads[k].items) && ListIs(heads[k], queues[k])
      ensures forall c :: 0 <= c < |blocks| && c != b && !Queued(c) ==>
                Unlinked(blocks[c].list) == old(Unlinked(blocks[c].list))
      ensures if accepted then
                ListIs(heads[h], queues[h] + [b]) && heads[h].items == old(heads[h].items) + [blocks[b].list]
              else ListIs(heads[h], queues[h]) && heads[h].items == old(heads[h].items) && !Unlinked(blocks[b].list)
    {
      hide ListHead.Valid;
      ListAt(h);
      Apart(h);
      LooseItems(b);
      HeadEnds(heads[h]);
      ghost var items := heads[h].items;
      forall k | k in live ensures ListIs(heads[k], queues[k]) { ListAt(k); }
      forall c | 0 <= c < |blocks| && !Queued(c) ensures blocks[c].list !in heads[h].items { LooseItems(c); }
      var item := heads[h].Insert(heads[h].last, blocks[b].list, |heads[h].items|);
      accepted := item != null;
      hide ListIs;
      forall k | k in live && k != h ensures heads[k].items == old(heads[k].items) && ListIs(heads[k], queues[k]) {
        assert heads[k] != heads[h];
        assert unchanged(heads[k]);
        ghost var others := old(heads[k].items);
        forall i | 0 <= i < |others| ensures unchanged(others[i]) {
          assert others[i] in others;
          assert others[i] !in items && others[i] != blocks[b].list;
        }
      }
      assert accepted ==> InsertAt(items, |items|, blocks[b].list) == items + [blocks[b].list];
    }

    /** List_insert behind the last message.  A stale block is refused. */
    method Append(h: int, b: int) returns (accepted: bool)
      requires Valid() && h in live && 0 <= b < |blocks| && !Queued(b) && b !in pool.free
      modifies this`queues, heads[h], blocks[b].list, heads[h].items
      ensures Valid() && accepted == !records[b].stale
      ensures queues == if accepted then old(queues)[h := old(queues)[h] + [b]] else old(queues)
    {
      hide ListHead.Valid, PoolAllocator.Valid, TextIs, ListIs, QueuedIn;
      ghost var before := queues;
      accepted := InsertLast(h, b);
      if accepted {
        queues := before[h := before[h] + [b]];
        QueuedAppended(before, h, b);
        assert blocks[b] in blocks;
        assert forall k :: k in live && k != h ==> queues[k] == before[k];
      }
    }

    lemma TailIs(head: ListHead, q: seq<int>, items: seq<ListItem>)
      requires head.Valid() && |items| == |q| > 0 && head.items == RemoveAt(items, 0)
      requires forall i :: 0 <= i < |q| ==> 0 <= q[i] < |blocks| && items[i] == blocks[q[i]].list
      ensures ListIs(head, q[1..]) && head.items == items[1..]
    {
      hide ListHead.Valid;
    }

    method DetachHead(h: int)
      requires ListsOk() && h in live && queues[h] != []
      modifies heads[h], heads[h].items
      ensures heads[h].Valid() && old(heads[h].items) != [] && heads[h].items == RemoveAt(old(heads[h].items), 0)
      ensures Unlinked(old(heads[h].items[0]))
      ensures forall k :: k in live && k != h ==> heads[k].items == old(heads[k].items) && ListIs(heads[k], queues[k])
    {
      hide ListHead.Valid, Queued, RemoveAt;
      ListAt(h);
      Apart(h);
      HeadEnds(heads[h]);
      ghost var items := heads[h].items;
      forall k | k in live ensures ListIs(heads[k], queues[k]) { ListAt(k); }
      var item := heads[h].Detach(heads[h].first, 0);
      hide ListIs;
      forall k | k in live && k != h ensures heads[k].items == old(heads[k].items) && ListIs(heads[k], queues[k]) {
        assert heads[k] != heads[h];
        assert unchanged(heads[k]);
        ghost var others := old(heads[k].items);
        forall i | 0 <= i < |others| ensures unchanged(others[i]) {
          assert others[i] in others;
          assert others[i] !in items;
        }
      }
    }

    method DetachFirst(h: int) returns (b: int)
      requires ListsOk() && h in live && queues[h] != []
      modifies heads[h], heads[h].items
      ensures b == queues[h][0] && 0 <= b < |blocks| && Unlinked(blocks[b].list)
      ensures ListIs(heads[h], queues[h][1..]) && heads[h].items == old(heads[h].items)[1..]
      ensures forall k :: k in live && k != h ==> heads[k].items == old(heads[k].items) && ListIs(heads[k], queues[k])
      ensures forall c :: 0 <= c < |blocks| && !Queued(c) ==>
                Unlinked(blocks[c].list) == old(Unlinked(blocks[c].list))
    {
      hide ListHead.Valid, Queued, RemoveAt;
      ghost var q, items := queues[h], heads[h].items;
      ListAt(h);
      HeadEnds(heads[h]);
      b := heads[h].first.idx;
      forall c | 0 <= c < |blocks| && !Queued(c) ensures blocks[c].list !in items { LooseItems(c); }
      hide ListIs, ListsOk;
      DetachHead(h);
      TailIs(heads[h], q, items);
    }

    /** List_detach of the first message. */
    method TakeFirst(h: int) returns (b: int)
      requires Valid() && h in live && queues[h] != []
      modifies this`queues, heads[h], heads[h].items
      ensures Valid() && b == old(queues)[h][0] && 0 <= b < |blocks| && !Queued(b) && b !in pool.free
      ensures queues == old(queues)[h := old(queues)[h][1..]]
    {
      hide ListHead.Valid, PoolAllocator.Valid, TextIs, ListIs, QueuedIn;
      ghost var before := queues;
      Apart(h);
      FirstQueued(h);
      b := DetachFirst(h);
      queues := before[h := before[h][1..]];
      ghost var first: int := before[h][0];
      assert first in before[h];
      assert forall k :: 0 <= k < |before| && k != h ==> first !in before[k];
      QueuedTail(before, h);
      assert forall k :: k in live && k != h ==> queues[k] == before[k];
    }

    lemma FirstQueued(h: int)
      requires 0 <= h < |queues|
      ensures queues[h] != [] ==> Queued(queues[h][0])
      ensures forall k, b: int :: 0 <= k < |queues| && b in queues[k] ==> Queued(b)
    {
      assert queues[h] != [] ==> queues[h][0] in queues[h];
    }

    // ---------- queues that come and go ----------

    /** mq_alloc: List_init of the head, whatever it held before. */
    method Create(h: int)
      requires Valid() && 0 <= h < |heads| && h !in live
      modifies this`live, heads[h]
      ensures Valid() && live == old(live) + {h}
    {
      hide ListHead.Valid, PoolAllocator.Valid, TextIs, QueuedIn;
      assert heads[h] in heads;
      forall k | k in live ensures ListIs(heads[k], queues[k]) { ListAt(k); }
      heads[h].Init();
      live := live + {h};
      hide ListIs;
    }

    /** The links of a queued block are null exactly when it is alone. */
    lemma LinksOfQueued(h: int)
      requires ListsOk() && h in live
      ensures forall b :: b in queues[h] ==>
                0 <= b < |blocks| && (Unlinked(blocks[b].list) <==> |queues[h]| < 2)
    {
      ListAt(h);
      var q, head := queues[h], heads[h];
      forall b | b in q ensures 0 <= b < |blocks| && (Unlinked(blocks[b].list) <==> |q| < 2) {
        var i :| 0 <= i < |q| && q[i] == b;
        assert head.Linked(i) && head.items[i] == blocks[b].list;
      }
    }

    lemma ItemOf(h: int, i: nat)
      requires ListsOk() && h in live && i < |queues[h]|
      ensures heads[h].items[i].idx == queues[h][i] && 0 <= queues[h][i] < |blocks|
      ensures heads[h].items[i].next == if i + 1 == |queues[h]| then null else heads[h].items[i + 1]
    {
      ListAt(h);
      assert heads[h].Linked(i);
    }

    lemma QueueChained(h: int)
      requires ListsOk() && h in live
      ensures Chained(heads[h].items, queues[h])
    {
      ListAt(h);
      var items, q := heads[h].items, queues[h];
      forall i | 0 <= i < |q| ensures ChainedAt(items, q, i) {
        ItemOf(h, i);
      }
    }

    lemma QueuedNotFree(h: int)
      requires Valid() && h in live
      ensures ListsOk() && pool.freeList == links && pool.Valid() && pool.sizeMax == |blocks|
      ensures 0 <= h < |queues| && forall j :: 0 <= j < |queues[h]| ==> queues[h][j] !in pool.free
    {
      hide PoolAllocator.Valid, ListIs, TextIs;
      FirstQueued(h);
      forall j | 0 <= j < |queues[h]| ensures queues[h][j] !in pool.free {
        var b: int := queues[h][j];
        assert b in queues[h];
      }
    }

    /** The loop of mq_free: every message is released once and without error, and its next pointer is
        still good after that. */
    method ReleaseBlocks(h: int)
      requires Valid() && h in live
      modifies pool, links
      ensures pool.freeList == links && pool.Valid() && pool.sizeMax == |blocks|
      ensures pool.free == ReleasedAll(old(pool.free), queues[h])
    {
      hide *;
      QueuedNotFree(h);
      ListAt(h);
      ghost var q, items, free := queues[h], heads[h].items, pool.free;
      Apart(h);
      HeadEnds(heads[h]);
      QueueChained(h);
      assert q[0..] == q;
      var message := heads[h].first;
      ghost var i := 0;
      while message != null
        invariant Chained(items, q) && 0 <= i <= |q| && message == if i == |q| then null else items[i]
        invariant pool.freeList == links && pool.Valid() && pool.sizeMax == |blocks|
        invariant ReleasedAll(pool.free, q[i..]) == ReleasedAll(free, q)
        invariant forall j :: i <= j < |q| ==> q[j] !in pool.free
        decreases |q| - i
        modifies pool, links
      {
        Fresher(q, i);
        ChainAt(items, q, i);
        ghost var before := pool.free;
        ReleasedStep(before, q, i);
        var r := pool.Free(message.idx);
        assert r == Success;
        message := message.next;
        i := i + 1;
      }
      ReleasedNone(pool.free, q);
    }

    /** mq_free.  The links of the freed blocks stay as they were in the list. */
    method FreeAll(h: int)
      requires Valid() && h in live
      modifies this`queues, this`live, this`records, pool, links
      ensures Valid() && live == old(live) - {h} && queues == old(queues)[h := []]
      ensures pool.free == ReleasedAll(old(pool.free), old(queues)[h])
      ensures records == Marked(old(records), old(queues)[h], |old(queues)[h]| >= 2)
    {
      hide ListHead.Valid, PoolAllocator.Valid, ListIs, TextIs, QueuedIn;
      ghost var before, q := queues, queues[h];
      Apart(h);
      LinksOfQueued(h);
      QueuedEmptied(before, h);
      ReleasedMembers(pool.free, q);
      ReleaseBlocks(h);
      queues, live, records := before[h := []], live - {h}, Marked(records, q, |q| >= 2);
      assert forall k :: k in live ==> queues[k] == before[k];
    }

    // ---------- the same, within the footprint ----------

    lemma Footprint(h: int)
      requires Valid() && h in live
      ensures this in Repr && pool in Repr && links in Repr && 0 <= h < |heads| && heads[h] in Repr
      ensures forall x :: x in heads[h].items ==> x in Repr
      ensures forall m :: m in blocks ==> m in Repr && m.list in Repr && m.msg in Repr
    {
    }

    method Enqueue(h: int, b: int) returns (accepted: bool)
      requires Valid() && h in live && 0 <= b < |blocks| && !Queued(b) && b !in pool.free
      modifies Repr
      ensures Valid() && accepted == !records[b].stale
      ensures accepted ==> queues == old(queues)[h := old(queues)[h] + [b]]
      ensures !accepted ==> queues == old(queues)
      ensures live == old(live) && records == old(records) && pool.free == old(pool.free)
    {
      hide Valid, Queued;
      Footprint(h);
      assert blocks[b] in blocks;
      accepted := Append(h, b);
    }

    method Dequeue(h: int) returns (b: int)
      requires Valid() && h in live && queues[h] != []
      modifies Repr
      ensures Valid() && b == old(queues)[h][0] && 0 <= b < |blocks| && !Queued(b) && b !in pool.free
      ensures queues == old(queues)[h := old(queues)[h][1..]]
      ensures live == old(live) && records == old(records) && pool.free == old(pool.free)
    {
      hide Valid, Queued;
      Footprint(h);
      b := TakeFirst(h);
    }

    method Clear(h: int)
      requires Valid() && h in live
      modifies Repr
      ensures Valid() && live == old(live) - {h} && queues == old(queues)[h := []]
      ensures pool.free == ReleasedAll(old(pool.free), old(queues)[h])
      ensures records == Marked(old(records), old(queues)[h], |old(queues)[h]| >= 2)
    {
      hide Valid;
      Footprint(h);
      FreeAll(h);
    }

    // ---------- reading ----------

    /** The size of the list and the block of its first message, or -1. */
    method First(h: int) returns (size: int, b: int)
      requires Valid() && h in live
      ensures 0 <= h < |queues| && size == |queues[h]|
      ensures if size == 0 then b == -1 else b == queues[h][0] && 0 <= b < |blocks| && Queued(b)
      ensures size != 0 ==> TextIs(blocks[b], records[b].text)
    {
      hide PoolAllocator.Valid, TextIs, StaleOk, Queued;
      ListAt(h);
      HeadEnds(heads[h]);
      FirstQueued(h);
      size := heads[h].size;
      if heads[h].first == null {
        return size, -1;
      }
      b := heads[h].first.idx;
    }

    /** The copying loop of a read. */
    method CopyOut(b: int, buffer: array<char>)
      requires 0 <= b < |blocks| && 0 <= blocks[b].length <= blocks[b].msg.Length
      requires blocks[b].length <= buffer.Length && buffer != blocks[b].msg
      modifies buffer
      ensures buffer[..blocks[b].length] == blocks[b].msg[..blocks[b].length]
      ensures buffer[blocks[b].length..] == old(buffer[blocks[b].length..])
    {
      var m := blocks[b];
      for i := 0 to m.length
        invariant buffer[..i] == m.msg[..i]
        invariant buffer[i..] == old(buffer[i..])
      {
        buffer[i] := m.msg[i];
        assert buffer[i + 1..] == buffer[i..][1..] && old(buffer[i + 1..]) == old(buffer[i..])[1..];
      }
    }

    lemma HeadEnds(head: ListHead)
      requires head.Valid()
      ensures head.last == if head.items == [] then null else head.items[|head.items| - 1]
      ensures head.first == if head.items == [] then null else head.items[0]
    {
    }
  }

  ghost function Objects(hs: seq<ListHead>, bs: seq<Message>, p: PoolAllocator, links: array<int>): (r: set<object>)
    ensures p in r && links in r && (forall h :: h in hs ==> h in r)
    ensures forall m :: m in bs ==> m in r && m.list in r && m.msg in r
  {
    var own: set<object>, h: set<object>, b: set<object> := {p, links}, set x | x in hs, set x | x in bs;
    var l: set<object>, t: set<object> := set x | x in bs :: x.list, set x | x in bs :: x.msg;
    own + h + b + l + t
  }

  ghost predicate NewBlock(m: Message, i: int)
    reads m, m.list
  {
    m.list.idx == i && m.msg.Length == MAX && m.length == 0 && m.list.prev == null && m.list.next == null
  }

  method NewHeads(n: nat) returns (hs: seq<ListHead>)
    ensures |hs| == n && forall i :: 0 <= i < n ==> fresh(hs[i])
    ensures forall i, j :: 0 <= i < j < n ==> hs[i] != hs[j]
  {
    hs := [];
    for i := 0 to n
      invariant |hs| == i && forall j :: 0 <= j < i ==> fresh(hs[j])
      invariant forall j, k :: 0 <= j < k < i ==> hs[j] != hs[k]
    {
      var h := new ListHead();
      hs := hs + [h];
    }
  }

  method NewMessages(n: nat) returns (bs: seq<Message>)
    ensures |bs| == n && forall i :: 0 <= i < n ==> NewBlock(bs[i], i)
    ensures forall i :: 0 <= i < n ==> fresh(bs[i]) && fresh(bs[i].list) && fresh(bs[i].msg)
    ensures forall i, j :: 0 <= i < j < n ==> bs[i].msg != bs[j].msg
  {
    bs := [];
    for i := 0 to n
      invariant |bs| == i && forall j :: 0 <= j < i ==> NewBlock(bs[j], j)
      invariant forall j :: 0 <= j < i ==> fresh(bs[j]) && fresh(bs[j].list) && fresh(bs[j].msg)
      invariant forall j, k :: 0 <= j < k < i ==> bs[j].msg != bs[k].msg
    {
      var m := new Message(i);
      bs := bs + [m];
    }
  }

  /** mq_init and m_init: the pool of message blocks, all of them empty. */
  method NewStore(n: nat, capacity: nat) returns (store: Store)
    requires capacity > 0
    ensures store.Valid() && fresh(store.Repr) && |store.heads| == n && |store.blocks| == capacity
    ensures store.queues == seq(n, _ => []) && store.live == {} && store.pool.free == seq(capacity, i => i)
    ensures store.records == seq(capacity, _ => RM.Message([], false))
  {
    hide PoolAllocator.Valid, Store.Valid;
    var hs := NewHeads(n);
    var bs := NewMessages(capacity);
    var p := new PoolAllocator();
    var r := p.Init(SIZEOF_MESSAGE, capacity, capacity * (SIZEOF_MESSAGE + SIZEOF_INT));
    store := new Store(hs, bs, p);
  }
}
