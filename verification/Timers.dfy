/** The timer list (disastrOS_timer.c): timer items from a pool, in a linked list by wake time. */
module Timers {
  import opened Sequences
  import opened LinkedList
  import opened Pools
  import opened ProcessModel
  import opened ProcessInvariant

  const SIZEOF_TIMER_ITEM := 32

  class TimerItem {
    const list: ListItem
    var awakeningTime: int
    var pcb: int

    constructor (idx: nat)
      ensures list.idx == idx && list.owner == null && fresh(list)
    {
      list := new ListItem(idx);
      awakeningTime, pcb := 0, NULL;
    }
  }

  /** The slot is determined by what lies before it and at it. */
  lemma {:induction false} SlotIs(timers: seq<Timer>, wake: int, k: nat)
    requires k <= |timers| && forall i :: 0 <= i < k ==> timers[i].wake <= wake
    requires k < |timers| ==> wake < timers[k].wake
    ensures Slot(timers, wake) == k
  {
    if k > 0 {
      assert timers[0].wake <= wake;
      SlotIs(timers[1..], wake, k - 1);
    }
  }

  lemma InsertedIsAdded(before: seq<Timer>, after: seq<Timer>, t: Timer)
    requires Inserted(before, after, t)
    ensures after == AddTimer(before, t)
  {
    var k: nat :| InsertedAt(before, after, t, k);
    SlotIs(before, t.wake, k);
  }

  /** The item is the header of a block that holds this timer. */
  ghost predicate Holds(blocks: seq<TimerItem>, item: ListItem, t: Timer)
    reads blocks
  {
    && item.idx < |blocks| && blocks[item.idx].list == item
    && blocks[item.idx].awakeningTime == t.wake && blocks[item.idx].pcb == t.pcb
  }

  ghost predicate HoldsAll(blocks: seq<TimerItem>, items: seq<ListItem>, timers: seq<Timer>)
    reads blocks
  {
    |items| == |timers| && forall i :: 0 <= i < |timers| ==> Holds(blocks, items[i], timers[i])
  }

  /** Fills block b and links it behind `previous`. */
  method LinkTimer(blocks: seq<TimerItem>, head: ListHead, b: nat, t: Timer, previous: ListItem?,
                   ghost k: nat, ghost timers: seq<Timer>)
    returns (ghost after: seq<Timer>)
    requires b < |blocks| && blocks[b].list.idx == b
    requires head.Valid() && HoldsAll(blocks, head.items, timers)
    requires forall i :: 0 <= i < |head.items| ==> head.items[i].idx != b
    requires k <= |head.items| && previous == if k == 0 then null else head.items[k - 1]
    modifies head, blocks[b], blocks[b].list, head.items
    ensures head.Valid() && head.items == InsertAt(old(head.items), k, blocks[b].list)
    ensures after == InsertAt(timers, k, t) && HoldsAll(blocks, head.items, after)
  {
    var item := blocks[b];
    item.pcb := t.pcb;
    item.awakeningTime := t.wake;
    assert forall i :: 0 <= i < |timers| ==> Holds(blocks, head.items[i], timers[i]);
    head.InsertNew(previous, item.list, k);
    after := InsertAt(timers, k, t);
  }

  class TimerList {
    const head: ListHead
    const pool: PoolAllocator
    const blocks: seq<TimerItem>
    ghost const links: array<int>
    ghost const Repr: set<object>
    ghost var timers: seq<Timer>   // the list, in order

    /** The static part: which objects there are. */
    ghost predicate Shape() {
      && {this, head, pool, links} <= Repr
      && (forall x :: x in blocks ==> x in Repr && x.list in Repr)
      && (forall i :: 0 <= i < |blocks| ==> blocks[i].list.idx == i)
    }

    ghost predicate Valid()
      reads this, Repr
    {
      && Shape() && pool.freeList == links && pool.sizeMax == |blocks|
      && (forall x :: x in head.items ==> x in Repr)
      && head.Valid() && pool.Valid()
      && HoldsAll(blocks, head.items, timers) && |pool.free| + |timers| == |blocks|
      && (forall i :: 0 <= i < |head.items| ==> head.items[i].idx !in pool.free)
    }

    constructor (n: nat)
      requires n > 0
      ensures Valid() && fresh(Repr) && timers == [] && |blocks| == n
    {
      var h := new ListHead();
      var p := new PoolAllocator();
      var r := p.Init(SIZEOF_TIMER_ITEM, n, n * (SIZEOF_TIMER_ITEM + SIZEOF_INT));
      var bs: seq<TimerItem> := [];
      ghost var objs: set<object> := {};
      for i := 0 to n
        invariant |bs| == i && fresh(objs)
        invariant forall j :: 0 <= j < i ==> bs[j] in objs && bs[j].list in objs && bs[j].list.idx == j
        invariant forall j :: 0 <= j < i ==> bs[j].list.owner == null
        invariant p.Valid() && fresh(p) && fresh(p.freeList) && p.sizeMax == n && p.free == seq(n, j => j)
        invariant h.Valid() && h.items == [] && fresh(h)
      {
        var b := new TimerItem(i);
        bs := bs + [b];
        objs := objs + {b, b.list};
      }
      head, pool, blocks, links, timers := h, p, bs, p.freeList, [];
      Repr := {this, h, p, p.freeList} + objs;
    }

    /** The scan of TimerList_add: it stops at the first timer that is due later. */
    method FindSlot(awakeningTime: int) returns (previous: ListItem?, ghost k: nat)
      requires Valid()
      ensures k <= |timers| == |head.items| && forall i :: 0 <= i < k ==> timers[i].wake <= awakeningTime
      ensures k < |timers| ==> awakeningTime < timers[k].wake
      ensures previous == if k == 0 then null else head.items[k - 1]
    {
      var aux := head.first;
      previous, k := null, 0;
      while aux != null
        invariant 0 <= k <= |head.items|
        invariant aux == if k == |head.items| then null else head.items[k]
        invariant previous == if k == 0 then null else head.items[k - 1]
        invariant forall i :: 0 <= i < k ==> timers[i].wake <= awakeningTime
        decreases |head.items| - k
      {
        assert head.Linked(k) && Holds(blocks, head.items[k], timers[k]);
        if awakeningTime < blocks[aux.idx].awakeningTime {
          break;
        }
        previous := aux;
        aux := aux.next;
        k := k + 1;
      }
    }

    /** TimerList_add. */
    method Add(awakeningTime: int, pcb: int) returns (added: bool)
      requires Valid()
      modifies Repr
      ensures Valid()
      ensures added == (|old(timers)| < |blocks|)
      ensures if added then Inserted(old(timers), timers, Timer(awakeningTime, pcb)) else timers == old(timers)
    {
      hide HoldsAll, Represents, ListHead.Valid;
      ghost var k;
      var previous;
      previous, k := FindSlot(awakeningTime);
      ghost var items, free := head.items, pool.free;
      var b := pool.Alloc();
      if b == -1 {
        return false;
      }
      assert blocks[b] in blocks && free[0] in free;
      timers := LinkTimer(blocks, head, b, Timer(awakeningTime, pcb), previous, k, timers);
      added := true;
      InsertMembers(items, k, blocks[b].list);
      assert InsertedAt(old(timers), timers, Timer(awakeningTime, pcb), k);
    }

    /** TimerList_current: the earliest timer, if it is due. */
    method Current(time: int) returns (item: TimerItem?)
      requires Valid()
      ensures item != null <==> timers != [] && timers[0].wake <= time
      ensures item != null ==> item.pcb == timers[0].pcb
    {
      if head.first == null {
        return null;
      }
      assert Holds(blocks, head.items[0], timers[0]);
      var current := blocks[head.first.idx];
      if time >= current.awakeningTime {
        return current;
      }
      return null;
    }

    /** List_detach followed by TimerItem_free, for the k-th timer. */
    method Remove(item: ListItem, ghost k: nat)
      requires Valid() && k < |timers| && item == head.items[k]
      modifies Repr
      ensures Valid() && timers == RemoveAt(old(timers), k)
      ensures head.items == RemoveAt(old(head.items), k)
    {
      hide *;
      Pieces();
      BlockAt(k);
      HoldsRemoved(head.items, timers, k);
      var r := head.Detach(item, k);
      var freed := pool.Free(item.idx);
      timers := RemoveAt(timers, k);
      Assemble();
    }

    lemma Pieces()
      requires Valid()
      ensures this in Repr && head in Repr && pool in Repr && links in Repr && forall x :: x in head.items ==> x in Repr
      ensures Shape() && pool.freeList == links && pool.sizeMax == |blocks| && head.Valid() && pool.Valid()
      ensures HoldsAll(blocks, head.items, timers)
    {
    }

    lemma Assemble()
      requires Shape() && pool.freeList == links && pool.sizeMax == |blocks| && head.Valid() && pool.Valid()
      requires HoldsAll(blocks, head.items, timers) && |pool.free| + |timers| == |blocks|
      requires forall i :: 0 <= i < |head.items| ==> head.items[i].idx !in pool.free
      requires forall x :: x in head.items ==> x in Repr
      ensures Valid()
    {
    }

    /** The other items are in the footprint, and their blocks are neither free nor that of item k. */
    lemma BlockAt(k: nat)
      requires Valid() && k < |timers|
      ensures |head.items| == |timers| && head.items[k].idx < |blocks| && head.items[k].idx !in pool.free
      ensures |pool.free| + |timers| == |blocks| && |RemoveAt(timers, k)| == |timers| - 1
      ensures var rest := RemoveAt(head.items, k);
              && (forall x :: x in rest ==> x in Repr)
              && forall i :: 0 <= i < |rest| ==> rest[i].idx !in [head.items[k].idx] + pool.free
    {
      ItemsDistinct();
      assert Holds(blocks, head.items[k], timers[k]);
      var rest := RemoveAt(head.items, k);
      hide HoldsAll, Holds, ListHead.Valid, Represents;
      forall i | 0 <= i < |rest| ensures rest[i] in head.items && rest[i].idx !in [head.items[k].idx] + pool.free {
        assert rest[i] == head.items[if i < k then i else i + 1];
      }
    }

    lemma HoldsRemoved(items: seq<ListItem>, before: seq<Timer>, k: nat)
      requires HoldsAll(blocks, items, before) && k < |before|
      ensures |items| == |before| && HoldsAll(blocks, RemoveAt(items, k), RemoveAt(before, k))
    {
      forall i | 0 <= i < |before| - 1 ensures Holds(blocks, RemoveAt(items, k)[i], RemoveAt(before, k)[i]) {
        assert Holds(blocks, items[if i < k then i else i + 1], before[if i < k then i else i + 1]);
      }
    }

    lemma HeadItem()
      requires Valid()
      ensures |head.items| == |timers| && head.first == if timers == [] then null else head.items[0]
    {
    }

    lemma ItemAt(k: nat)
      requires Valid() && k < |timers|
      ensures |head.items| == |timers| && Holds(blocks, head.items[k], timers[k])
      ensures head.items[k].next == if k + 1 == |timers| then null else head.items[k + 1]
    {
      assert Holds(blocks, head.items[k], timers[k]) && head.Linked(k);
    }

    lemma ItemsDistinct()
      requires Valid()
      ensures forall i, j :: 0 <= i < j < |head.items| ==> head.items[i].idx != head.items[j].idx
    {
      forall i, j | 0 <= i < j < |head.items| ensures head.items[i].idx != head.items[j].idx {
        assert Holds(blocks, head.items[i], timers[i]) && Holds(blocks, head.items[j], timers[j]);
      }
    }

    /** TimerList_removeCurrent; the source follows a null pointer when there is no timer. */
    method RemoveCurrent()
      requires Valid() && timers != []
      modifies Repr
      ensures Valid() && timers == old(timers)[1..]
    {
      Remove(head.first, 0);
    }

    /** The loop of internal_exit that releases every timer of a process. */
    method Purge(pcb: int)
      requires Valid()
      modifies Repr
      ensures Valid() && timers == DropTimers(old(timers), pcb)
    {
      hide HoldsAll, Represents, ListHead.Valid, DropTimers, Purged;
      HeadItem();
      var aux := head.first;
      ghost var i, k, all := 0, 0, timers;
      PurgeEnds(all, pcb);
      while aux != null
        invariant Valid() && 0 <= i <= |all|
        invariant timers == Purged(all, i, pcb) && k == |DropTimers(all[..i], pcb)|
        invariant |head.items| == |timers| == k + |all| - i
        invariant aux == if i == |all| then null else head.items[k]
        decreases |all| - i
      {
        PurgeStep(all, i, pcb);
        ItemAt(k);
        var timer := blocks[aux.idx];
        aux := aux.next;
        if timer.pcb == pcb {
          Remove(timer.list, k);
        } else {
          k := k + 1;
        }
        i := i + 1;
      }
    }
  }

  /** The list when the first i timers have been looked at. */
  ghost function Purged(all: seq<Timer>, i: nat, pcb: int): seq<Timer>
    requires i <= |all|
  {
    DropTimers(all[..i], pcb) + all[i..]
  }

  lemma PurgeEnds(all: seq<Timer>, pcb: int)
    ensures Purged(all, 0, pcb) == all && DropTimers(all[..0], pcb) == []
    ensures Purged(all, |all|, pcb) == DropTimers(all, pcb)
  {
    assert all[..|all|] == all;
  }

  lemma PurgeStep(all: seq<Timer>, i: nat, pcb: int)
    requires i < |all|
    ensures var k := |DropTimers(all[..i], pcb)|;
            && k < |Purged(all, i, pcb)| && Purged(all, i, pcb)[k] == all[i]
            && (if all[i].pcb == pcb then
                  && Purged(all, i + 1, pcb) == RemoveAt(Purged(all, i, pcb), k)
                  && |DropTimers(all[..i + 1], pcb)| == k
                else
                  && Purged(all, i + 1, pcb) == Purged(all, i, pcb)
                  && |DropTimers(all[..i + 1], pcb)| == k + 1)
  {
    DropOne(all, i, pcb);
  }

  lemma {:induction false} DropAppended(timers: seq<Timer>, t: Timer, pcb: int)
    ensures DropTimers(timers + [t], pcb) == DropTimers(timers, pcb) + (if t.pcb == pcb then [] else [t])
  {
    if timers != [] {
      assert (timers + [t])[1..] == timers[1..] + [t];
      DropAppended(timers[1..], t, pcb);
    }
  }

  lemma DropOne(all: seq<Timer>, i: nat, pcb: int)
    requires i < |all|
    ensures DropTimers(all[..i + 1], pcb) == DropTimers(all[..i], pcb) + (if all[i].pcb == pcb then [] else [all[i]])
  {
    assert all[..i + 1] == all[..i] + [all[i]];
    DropAppended(all[..i], all[i], pcb);
  }
}
