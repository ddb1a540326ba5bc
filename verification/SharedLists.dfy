/** The ready, waiting and zombie lists: three list heads over one list item per PCB. */
module SharedLists {
  import opened Sequences
  import opened LinkedList

  class ProcessLists {
    const ready: ListHead
    const waiting: ListHead
    const zombie: ListHead
    const items: seq<ListItem>     // the header of each PCB block
    ghost const Repr: set<object>

    ghost predicate Shape() {
      && {ready, waiting, zombie} <= Repr && ready != waiting && waiting != zombie && zombie != ready
      && (forall x :: x in items ==> x in Repr)
      && (forall i :: 0 <= i < |items| ==> items[i].idx == i)
    }

    ghost predicate IsHead(h: ListHead) {
      h == ready || h == waiting || h == zombie
    }

    /** The list is well formed and holds headers of PCB blocks. */
    ghost predicate ListOk(h: ListHead)
      reads h, h.items
    {
      h.Valid() && forall i :: 0 <= i < |h.items| ==> OwnItem(h.items[i])
    }

    ghost predicate OwnItem(item: ListItem) {
      item.idx < |items| && items[item.idx] == item
    }

    /** The block is in no list. */
    ghost predicate Loose(b: int)
      reads ready, waiting, zombie
    {
      b !in ready.Contents() && b !in waiting.Contents() && b !in zombie.Contents()
    }

    ghost predicate Valid()
      reads this, Repr
    {
      && Shape()
      && (forall x :: x in ready.items ==> x in Repr)
      && (forall x :: x in waiting.items ==> x in Repr)
      && (forall x :: x in zombie.items ==> x in Repr)
      && ListOk(ready) && ListOk(waiting) && ListOk(zombie)
      && (forall b :: 0 <= b < |items| && Loose(b) ==> items[b].prev == null && items[b].next == null)
    }

    constructor (blocks: seq<ListItem>)
      requires forall i :: 0 <= i < |blocks| ==> blocks[i].idx == i && blocks[i].prev == null && blocks[i].next == null
      ensures Valid() && items == blocks && this !in Repr
      ensures forall x :: x in Repr ==> fresh(x) || x in blocks
      ensures ready.Contents() == [] && waiting.Contents() == [] && zombie.Contents() == []
    {
      var r := new ListHead();
      var w := new ListHead();
      var z := new ListHead();
      ready, waiting, zombie, items := r, w, z, blocks;
      ghost var heads: set<object>, headers: set<object> := {r, w, z}, set x | x in blocks;
      Repr := heads + headers;
    }

    method InsertRaw(h: ListHead, prev: ListItem?, b: int, ghost k: nat)
      requires Valid() && IsHead(h) && 0 <= b < |items| && Loose(b)
      requires k <= |h.items| && prev == if k == 0 then null else h.items[k - 1]
      modifies Repr
      ensures h.Valid() && h.items == InsertAt(old(h.items), k, items[b])
      ensures h != ready ==> ready.items == old(ready.items) && ListOk(ready)
      ensures h != waiting ==> waiting.items == old(waiting.items) && ListOk(waiting)
      ensures h != zombie ==> zombie.items == old(zombie.items) && ListOk(zombie)
      ensures forall c :: 0 <= c < |items| && c != b && items[c] !in old(h.items) ==>
                items[c].prev == old(items[c].prev) && items[c].next == old(items[c].next)
    {
      hide ListHead.Valid, ListOk, Loose;
      Apart(h, b);
      Covered(h, b);
      var accepted := h.Insert(prev, items[b], k);
      assert accepted == items[b];
    }

    lemma Covered(h: ListHead, b: int)
      requires Valid() && IsHead(h) && 0 <= b < |items|
      ensures h.Valid() && forall x :: x in h.items ==> x in Repr
      ensures Loose(b) ==> items[b].prev == null && items[b].next == null && items[b] !in h.items
      ensures items[b] in items && items[b] in Repr
    {
      assert items[b] in items;
      forall i | 0 <= i < |h.items| && Loose(b) ensures h.items[i] != items[b] {
        assert h.Contents()[i] in h.Contents();
      }
    }

    /** List_insert of a PCB that is in no list: its links are null, so it is never refused. */
    method Insert(h: ListHead, prev: ListItem?, b: int, ghost k: nat)
      requires Valid() && IsHead(h) && 0 <= b < |items| && Loose(b)
      requires k <= |h.items| && prev == if k == 0 then null else h.items[k - 1]
      modifies Repr
      ensures Valid() && h.Contents() == InsertAt(old(h.Contents()), k, b)
      ensures h != ready ==> ready.Contents() == old(ready.Contents())
      ensures h != waiting ==> waiting.Contents() == old(waiting.Contents())
      ensures h != zombie ==> zombie.Contents() == old(zombie.Contents())
    {
      hide ListOk, ListHead.Valid, Loose, InsertAt, ListHead.Contents, OwnItem;
      OldList(h);
      ghost var before, all := h.items, h.Contents();
      LooseMeans();
      NotListed(before, all);
      InsertRaw(h, prev, b, k);
      ListAfterInsert(h, before, all, k, b);
      LooseMeans();
      assert items[b] in items;
      forall c | 0 <= c < |items| && Loose(c) ensures items[c].prev == null && items[c].next == null {
        assert c !in all && c != b;
        assert old(Loose(c));
      }
    }

    lemma LooseMeans()
      ensures forall b :: Loose(b) <==>
                b !in ready.Contents() && b !in waiting.Contents() && b !in zombie.Contents()
    {
    }

    method DetachRaw(h: ListHead, b: int, ghost k: nat)
      requires Valid() && IsHead(h) && 0 <= b < |items| && k < |h.items| && h.items[k] == items[b]
      modifies Repr
      ensures h.Valid() && h.items == RemoveAt(old(h.items), k)
      ensures items[b].prev == null && items[b].next == null
      ensures h != ready ==> ready.items == old(ready.items) && ListOk(ready)
      ensures h != waiting ==> waiting.items == old(waiting.items) && ListOk(waiting)
      ensures h != zombie ==> zombie.items == old(zombie.items) && ListOk(zombie)
      ensures forall c :: 0 <= c < |items| && items[c] !in old(h.items) ==>
                items[c].prev == old(items[c].prev) && items[c].next == old(items[c].next)
    {
      hide ListHead.Valid, ListOk, Loose;
      Apart(h, b);
      Covered(h, b);
      assert h.items[k] in h.items;
      var r := h.Detach(items[b], k);
    }

    /** List_detach, naming the list that holds the PCB. */
    method Detach(h: ListHead, b: int, ghost k: nat)
      requires Valid() && IsHead(h) && k < |h.items| && h.Contents()[k] == b
      modifies Repr
      ensures Valid() && h.Contents() == RemoveAt(old(h.Contents()), k)
      ensures h != ready ==> ready.Contents() == old(ready.Contents())
      ensures h != waiting ==> waiting.Contents() == old(waiting.Contents())
      ensures h != zombie ==> zombie.Contents() == old(zombie.Contents())
    {
      hide ListOk, ListHead.Valid, Loose, RemoveAt, ListHead.Contents, OwnItem;
      OldList(h);
      Header(h, k);
      ghost var before, all := h.items, h.Contents();
      LooseMeans();
      NotListed(before, all);
      DetachRaw(h, b, k);
      ListAfterDetach(h, before, all, k);
      LooseMeans();
      forall c | 0 <= c < |items| && Loose(c) ensures items[c].prev == null && items[c].next == null {
        if c != b {
          assert c !in all;
          assert old(Loose(c));
        }
      }
    }

    lemma ListAfterDetach(h: ListHead, before: seq<ListItem>, all: seq<int>, k: nat)
      requires Shape() && h.Valid() && k < |before| && h.items == RemoveAt(before, k)
      requires |before| == |all| && forall i :: 0 <= i < |all| ==> all[i] == before[i].idx && OwnItem(before[i])
      ensures ListOk(h) && h.Contents() == RemoveAt(all, k)
      ensures forall x :: x in h.items ==> x in before
      ensures forall c :: c in all ==> c in h.Contents() || c == all[k]
    {
      hide ListHead.Valid;
      assert h.Contents() == RemoveAt(all, k);
      forall c | c in all ensures c in h.Contents() || c == all[k] {
        var i :| 0 <= i < |all| && all[i] == c;
        if i != k {
          assert RemoveAt(all, k)[if i < k then i else i - 1] == c;
        }
      }
    }

    lemma Header(h: ListHead, k: nat)
      requires Valid() && IsHead(h) && k < |h.items|
      ensures 0 <= h.Contents()[k] < |items| && items[h.Contents()[k]] == h.items[k]
    {
      assert OwnItem(h.items[k]);
    }

    lemma OldList(h: ListHead)
      requires Valid() && IsHead(h)
      ensures forall i :: 0 <= i < |h.items| ==> OwnItem(h.items[i])
    {
    }

    lemma ListAfterInsert(h: ListHead, before: seq<ListItem>, all: seq<int>, k: nat, b: nat)
      requires Shape() && h.Valid() && k <= |before| && b < |items| && h.items == InsertAt(before, k, items[b])
      requires |before| == |all| && forall i :: 0 <= i < |all| ==> all[i] == before[i].idx && OwnItem(before[i])
      ensures ListOk(h) && h.Contents() == InsertAt(all, k, b)
      ensures forall x :: x in h.items <==> x in before || x == items[b]
      ensures forall c :: c in h.Contents() <==> c in all || c == b
    {
      hide ListHead.Valid;
      InsertMembers(before, k, items[b]);
      InsertMembers(all, k, b);
      assert h.Contents() == InsertAt(all, k, b);
    }

    /** A block outside the contents has its header outside the items. */
    lemma NotListed(before: seq<ListItem>, all: seq<int>)
      requires |before| == |all| && forall i :: 0 <= i < |all| ==> all[i] == before[i].idx
      requires Shape()
      ensures forall c :: 0 <= c < |items| && c !in all ==> items[c] !in before
    {
    }

    /** Another list shares no item with h, and block b is in no list. */
    lemma Apart(h: ListHead, b: int)
      requires Valid() && IsHead(h) && 0 <= b < |items|
      ensures forall g, i :: IsHead(g) && g != h && 0 <= i < |g.items| ==> g.items[i] !in h.items
      ensures Loose(b) ==> forall g, i :: IsHead(g) && 0 <= i < |g.items| ==> g.items[i] != items[b]
    {
      ready.OwnsItems();
      waiting.OwnsItems();
      zombie.OwnsItems();
    }

    /** What the first and last pointers of a list say about its contents. */
    lemma Ends(h: ListHead)
      requires Valid() && IsHead(h)
      ensures h.first == null <==> h.Contents() == []
      ensures h.first != null ==> h.first == h.items[0] && h.first.idx == h.Contents()[0]
      ensures h.last == if h.items == [] then null else h.items[|h.items| - 1]
    {
    }

    /** List_insert behind the last item. */
    method Append(h: ListHead, b: int)
      requires Valid() && IsHead(h) && 0 <= b < |items| && Loose(b)
      modifies Repr
      ensures Valid() && h.Contents() == old(h.Contents()) + [b]
      ensures h != ready ==> ready.Contents() == old(ready.Contents())
      ensures h != waiting ==> waiting.Contents() == old(waiting.Contents())
      ensures h != zombie ==> zombie.Contents() == old(zombie.Contents())
    {
      Ends(h);
      ghost var all := h.Contents();
      Insert(h, h.last, b, |h.items|);
      assert InsertAt(all, |all|, b) == all + [b];
    }

    /** List_detach of the first item. */
    method Pop(h: ListHead) returns (b: int)
      requires Valid() && IsHead(h) && h.first != null
      modifies Repr
      ensures Valid() && old(h.Contents()) != [] && b == old(h.Contents())[0] && h.Contents() == old(h.Contents())[1..]
      ensures h != ready ==> ready.Contents() == old(ready.Contents())
      ensures h != waiting ==> waiting.Contents() == old(waiting.Contents())
      ensures h != zombie ==> zombie.Contents() == old(zombie.Contents())
    {
      Ends(h);
      b := h.first.idx;
      Detach(h, b, 0);
    }

    /** List_detach of a given PCB. */
    method Take(h: ListHead, b: int)
      requires Valid() && IsHead(h) && b in h.Contents()
      modifies Repr
      ensures Valid() && h.Contents() == Remove(old(h.Contents()), b)
      ensures h != ready ==> ready.Contents() == old(ready.Contents())
      ensures h != waiting ==> waiting.Contents() == old(waiting.Contents())
      ensures h != zombie ==> zombie.Contents() == old(zombie.Contents())
    {
      Detach(h, b, IndexOf(h.Contents(), b));
    }
  }
}
