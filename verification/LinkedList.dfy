/** The intrusive doubly linked list under every other structure (linked_list.c).

    A `ListItem` is the header that each kernel structure starts with; `idx` is the number of
    the pool block that embeds it, which is what a pointer cast recovers.  Nothing in an item
    records which list holds it; the ghost field `owner` does, so that two lists never share an
    item and an operation on one list leaves every other list alone. */
module LinkedList {
  import opened Sequences

  class ListItem {
    const idx: nat
    var prev: ListItem?
    var next: ListItem?
    ghost var owner: ListHead?

    constructor (idx: nat)
      ensures this.idx == idx && prev == null && next == null && owner == null
    {
      this.idx := idx;
      prev, next, owner := null, null, null;
    }
  }

  class ListHead {
    var first: ListItem?
    var last: ListItem?
    var size: int
    ghost var items: seq<ListItem>

    ghost predicate Valid()
      reads this, items
    {
      && size == |items|
      && first == (if items == [] then null else items[0])
      && last == (if items == [] then null else items[|items| - 1])
      && Distinct(items)
      && (forall i :: 0 <= i < |items| ==> Linked(i))
    }

    ghost predicate Linked(i: nat)
      requires i < |items|
      reads this, items
    {
      && items[i].owner == this
      && items[i].prev == (if i == 0 then null else items[i - 1])
      && items[i].next == (if i + 1 == |items| then null else items[i + 1])
    }

    /** The blocks in the list, in order: the abstract value of the list. */
    ghost function Contents(): (s: seq<int>)
      reads this
      ensures |s| == |items| && forall i :: 0 <= i < |s| ==> s[i] == items[i].idx
    {
      seq(|items|, i requires 0 <= i < |items| reads this => items[i].idx)
    }

    lemma OwnsItems()
      requires Valid()
      ensures forall x :: x in items ==> x.owner == this
      ensures forall i :: 0 <= i < |items| ==> items[i].owner == this
    {
      assert forall i :: 0 <= i < |items| ==> Linked(i);
      forall x | x in items ensures x.owner == this {
        var i :| 0 <= i < |items| && items[i] == x;
        assert Linked(i);
      }
    }

    constructor ()
      ensures Valid() && items == []
    {
      first, last, size, items := null, null, 0, [];
    }

    /** Forgets the items without touching them: their links and owners stay as they were. */
    method Init()
      modifies this
      ensures Valid() && items == []
    {
      first, last, size, items := null, null, 0, [];
    }

    method Find(item: ListItem) returns (r: ListItem?)
      requires Valid()
      ensures r == if item in items then item else null
    {
      var aux := first;
      ghost var i := 0;
      while aux != null
        invariant 0 <= i <= |items|
        invariant aux == (if i == |items| then null else items[i])
        invariant item !in items[..i]
        decreases |items| - i
      {
        if aux == item {
          return item;
        }
        assert Linked(i);
        aux := aux.next;
        i := i + 1;
      }
      r := null;
    }

    /** `prev` is the item at position k - 1, or null for the front.  An item that still has a
        neighbour is refused and nothing changes, whichever list (if any) it is in. */
    method Insert(prev: ListItem?, item: ListItem, ghost k: nat) returns (r: ListItem?)
      requires Valid()
      requires k <= |items| && prev == (if k == 0 then null else items[k - 1])
      requires item.prev == null && item.next == null ==> item !in items
      modifies this, item, items`prev, items`next
      ensures Valid()
      ensures old(item.prev != null || item.next != null) ==>
                r == null && items == old(items) && item.owner == old(item.owner)
                && item.prev == old(item.prev) && item.next == old(item.next)
      ensures old(item.prev == null && item.next == null) ==>
                r == item && items == InsertAt(old(items), k, item) && item.owner == this
    {
      if item.next != null || item.prev != null {
        return null;
      }
      assert k > 0 ==> Linked(k - 1);
      var next := if prev != null then prev.next else first;
      if prev != null {
        item.prev := prev;
        prev.next := item;
      }
      if next != null {
        item.next := next;
        next.prev := item;
      }
      if prev == null {
        first := item;
      }
      if next == null {
        last := item;
      }
      size := size + 1;
      item.owner := this;
      items := InsertAt(items, k, item);
      r := item;
      forall i | 0 <= i < |items| ensures Linked(i) {
        if i < k { assert old(Linked(i)); } else if k < i { assert old(Linked(i - 1)); }
      }
    }

    /** A new block is put in the list: its allocator clears the links first. */
    method InsertNew(prev: ListItem?, item: ListItem, ghost k: nat)
      requires Valid() && item !in items
      requires k <= |items| && prev == (if k == 0 then null else items[k - 1])
      modifies this, item, items`prev, items`next
      ensures Valid() && items == InsertAt(old(items), k, item) && item.owner == this
    {
      item.prev, item.next := null, null;
      assert Valid();
      var r := Insert(prev, item, k);
    }

    /** The caller must name the list that holds the item. */
    method Detach(item: ListItem, ghost k: nat) returns (r: ListItem)
      requires Valid()
      requires k < |items| && items[k] == item
      modifies this, item, items`prev, items`next
      ensures Valid()
      ensures r == item && item.prev == null && item.next == null && item.owner == null
      ensures items == RemoveAt(old(items), k)
    {
      assert Linked(k);
      assert k > 0 ==> Linked(k - 1);
      assert k + 1 < |items| ==> Linked(k + 1);
      var prev, next := item.prev, item.next;
      if prev != null {
        prev.next := next;
      }
      if next != null {
        next.prev := prev;
      }
      if item == first {
        first := next;
      }
      if item == last {
        last := prev;
      }
      size := size - 1;
      item.next, item.prev := null, null;
      item.owner := null;
      items := RemoveAt(items, k);
      r := item;
      forall i | 0 <= i < |items| ensures Linked(i) {
        if i < k { assert old(Linked(i)); } else { assert old(Linked(i + 1)); }
      }
    }
  }

  /** Every pointer and the size are determined by the sequence of items. */
  twostate lemma SameItemsSameFields(l: ListHead)
    requires old(l.Valid()) && l.Valid() && l.items == old(l.items)
    ensures l.first == old(l.first) && l.last == old(l.last) && l.size == old(l.size)
    ensures forall i :: 0 <= i < |l.items| ==>
              l.items[i].prev == old(l.items[i].prev) && l.items[i].next == old(l.items[i].next)
  {
    forall i | 0 <= i < |l.items|
      ensures l.items[i].prev == old(l.items[i].prev) && l.items[i].next == old(l.items[i].next)
    {
      assert l.Linked(i) && old(l.Linked(i));
    }
  }

  /** Detach undoes insert, field by field, and a list with other items is left alone. */
  method InsertThenDetach(l: ListHead, other: ListHead, prev: ListItem?, item: ListItem, ghost k: nat)
    requires l.Valid() && other.Valid() && l != other
    requires k <= |l.items| && prev == (if k == 0 then null else l.items[k - 1])
    requires item.owner == null && item.prev == null && item.next == null
    modifies l, item, l.items
    ensures l.Valid() && l.items == old(l.items)
    ensures l.first == old(l.first) && l.last == old(l.last) && l.size == old(l.size)
    ensures forall i :: 0 <= i < |l.items| ==>
              l.items[i].prev == old(l.items[i].prev) && l.items[i].next == old(l.items[i].next)
    ensures item.owner == null && item.prev == null && item.next == null
    ensures other.Valid() && other.items == old(other.items)
  {
    hide ListHead.Valid;
    other.OwnsItems();
    l.OwnsItems();
    ghost var s := l.items;
    RemoveInserted(s, k, item);
    var r := l.Insert(prev, item, k);
    assert other.Valid();
    l.OwnsItems();
    other.OwnsItems();
    r := l.Detach(item, k);
    assert l.items == s;
    SameItemsSameFields(l);
  }
}
