/** A family of linked lists over the blocks of one pool: list heads that are fields of other structures, and
    the list item that starts each block.  A block is in one list at most, and its allocator clears its links
    before it is put into one. */
module ListTables {
  import opened Sequences
  import opened LinkedList

  ghost predicate InSome(lists: seq<seq<int>>, b: int) {
    exists h :: 0 <= h < |lists| && b in lists[h]
  }

  lemma NotInSome(lists: seq<seq<int>>, b: int)
    requires forall h :: 0 <= h < |lists| ==> b !in lists[h]
    ensures !InSome(lists, b)
  {
  }

  class ListTable {
    const heads: seq<ListHead>
    const items: seq<ListItem>
    ghost const Repr: set<object>
    ghost var lists: seq<seq<int>>      // the blocks in each list

    ghost predicate Shape() {
      && this in Repr && (forall h :: h in heads ==> h in Repr) && (forall x :: x in items ==> x in Repr)
      && (forall i :: 0 <= i < |items| ==> items[i].idx == i) && Distinct(heads)
    }

    /** The items of the list are the headers of the blocks of q. */
    ghost predicate ListIs(head: ListHead, q: seq<int>)
      reads head, head.items
    {
      && head.Valid() && |head.items| == |q|
      && forall i :: 0 <= i < |q| ==> 0 <= q[i] < |items| && head.items[i] == items[q[i]]
    }

    ghost predicate InRepr(head: ListHead)
      reads head
    {
      head in Repr && forall x :: x in head.items ==> x in Repr
    }

    ghost predicate Valid()
      reads this, Repr
    {
      && Shape() && |lists| == |heads|
      && forall h :: 0 <= h < |heads| ==> InRepr(heads[h]) && ListIs(heads[h], lists[h])
    }

    constructor (hs: seq<ListHead>, xs: seq<ListItem>)
      requires Distinct(hs) && forall i :: 0 <= i < |hs| ==> hs[i].Valid() && hs[i].items == []
      requires forall i :: 0 <= i < |xs| ==> xs[i].idx == i
      ensures Valid() && heads == hs && items == xs && lists == seq(|hs|, _ => [])
      ensures forall x :: x in Repr ==> x == this || x in hs || x in xs
    {
      heads, items, lists := hs, xs, seq(|hs|, _ => []);
      ghost var a: set<object>, b: set<object> := set h | h in hs, set x | x in xs;
      Repr := {this} + a + b;
      new;
      hide ListHead.Valid;
    }

    // ---------- reading ----------

    lemma ListAt(h: int)
      requires Valid() && 0 <= h < |heads|
      ensures ListIs(heads[h], lists[h]) && heads[h].Valid() && heads[h] in Repr && |lists| == |heads|
      ensures |heads[h].items| == |lists[h]| && forall x :: x in heads[h].items ==> x in Repr
      ensures forall i :: 0 <= i < |lists[h]| ==>
                0 <= lists[h][i] < |items| && heads[h].items[i] == items[lists[h][i]]
    {
    }

    lemma Sizes()
      requires Valid()
      ensures this in Repr && |lists| == |heads|
    {
    }

    lemma HeadEnds(head: ListHead)
      requires head.Valid()
      ensures head.last == if head.items == [] then null else head.items[|head.items| - 1]
      ensures head.first == if head.items == [] then null else head.items[0]
      ensures Distinct(head.items) && head.size == |head.items|
    {
    }

    lemma HeaderListed(h: int, b: int)
      requires Valid() && 0 <= h < |heads| && b in lists[h]
      ensures 0 <= b < |items| && items[b] in heads[h].items
    {
      ListAt(h);
      var i :| 0 <= i < |lists[h]| && lists[h][i] == b;
    }

    /** A block is in a list exactly when its header is. */
    lemma LooseItem(h: int, b: int)
      requires Valid() && 0 <= b < |items| && 0 <= h < |heads|
      ensures items[b] in heads[h].items <==> b in lists[h]
    {
      hide ListHead.Valid;
      ListAt(h);
      if b in lists[h] { HeaderListed(h, b); }
      if items[b] in heads[h].items {
        var i :| 0 <= i < |heads[h].items| && heads[h].items[i] == items[b];
        assert items[lists[h][i]].idx == lists[h][i];
        assert lists[h][i] == b;
      }
    }

    /** Lists share no item, and a list has no block twice. */
    lemma Apart(h: int)
      requires Valid() && 0 <= h < |heads|
      ensures forall k, x :: 0 <= k < |heads| && k != h && x in heads[k].items ==> x !in heads[h].items
      ensures Distinct(lists[h])
    {
      hide ListHead.Valid;
      ListAt(h);
      heads[h].OwnsItems();
      HeadEnds(heads[h]);
      forall k, x | 0 <= k < |heads| && k != h && x in heads[k].items ensures x !in heads[h].items {
        ListAt(k);
        heads[k].OwnsItems();
      }
    }

    /** A block is in one list only, and there once. */
    lemma Once(h: int, b: int)
      requires Valid() && 0 <= h < |heads| && b in lists[h]
      ensures |lists| == |heads| && Distinct(lists[h]) && forall k :: 0 <= k < |lists| && k != h ==> b !in lists[k]
    {
      hide ListHead.Valid;
      Sizes();
      Apart(h);
      HeaderListed(h, b);
      forall k | 0 <= k < |lists| && k != h ensures b !in lists[k] {
        LooseItem(k, b);
      }
    }

    /** The first block of the list, or -1. */
    method First(h: int) returns (b: int)
      requires Valid() && 0 <= h < |heads|
      ensures |lists| == |heads| && if lists[h] == [] then b == -1 else b == lists[h][0] && 0 <= b < |items|
    {
      hide ListHead.Valid;
      ListAt(h);
      HeadEnds(heads[h]);
      if heads[h].first == null {
        return -1;
      }
      b := heads[h].first.idx;
    }

    /** The block after the k-th of the list, or -1. */
    method Next(b: int, ghost h: int, ghost k: nat) returns (c: int)
      requires Valid() && 0 <= h < |heads| && |lists| == |heads| && k < |lists[h]| && lists[h][k] == b
      ensures if k + 1 == |lists[h]| then c == -1 else c == lists[h][k + 1] && 0 <= c < |items|
    {
      ListAt(h);
      assert heads[h].Linked(k);
      hide ListHead.Valid;
      var next := items[b].next;
      if next == null {
        return -1;
      }
      c := next.idx;
    }

    method Empty(h: int) returns (r: bool)
      requires Valid() && 0 <= h < |heads|
      ensures |lists| == |heads| && r == (lists[h] == [])
    {
      hide ListHead.Valid;
      ListAt(h);
      HeadEnds(heads[h]);
      r := heads[h].size == 0;
    }

    // ---------- updates ----------

    method InsertLast(h: int, b: int)
      requires Valid() && 0 <= h < |heads| && 0 <= b < |items| && !InSome(lists, b)
      modifies heads[h], items[b], heads[h].items
      ensures ListIs(heads[h], lists[h] + [b]) && InRepr(heads[h])
      ensures forall k :: 0 <= k < |heads| && k != h ==> InRepr(heads[k]) && ListIs(heads[k], lists[k])
    {
      hide ListHead.Valid;
      ListAt(h);
      Apart(h);
      HeadEnds(heads[h]);
      forall k | 0 <= k < |heads|
        ensures items[b] !in heads[k].items && ListIs(heads[k], lists[k]) && InRepr(heads[k])
      {
        ListAt(k);
        LooseItem(k, b);
      }
      ghost var before := heads[h].items;
      assert items[b] in items;
      heads[h].InsertNew(heads[h].last, items[b], |before|);
      hide ListIs;
      forall k | 0 <= k < |heads| && k != h ensures InRepr(heads[k]) && ListIs(heads[k], lists[k]) {
        assert heads[k] != heads[h];
        assert unchanged(heads[k]);
        ghost var others := old(heads[k].items);
        forall i | 0 <= i < |others| ensures unchanged(others[i]) {
          assert others[i] in others;
          assert others[i] !in before && others[i] != items[b];
        }
      }
      assert InsertAt(before, |before|, items[b]) == before + [items[b]];
      AppendedIs(heads[h], lists[h], before, b);
    }

    lemma AppendedIs(head: ListHead, q: seq<int>, before: seq<ListItem>, b: int)
      requires head.Valid() && 0 <= b < |items| && head.items == before + [items[b]] && |before| == |q|
      requires items[b] in Repr && head in Repr && forall x :: x in before ==> x in Repr
      requires forall i :: 0 <= i < |q| ==> 0 <= q[i] < |items| && before[i] == items[q[i]]
      ensures ListIs(head, q + [b]) && InRepr(head)
    {
      hide ListHead.Valid;
    }

    /** List_insert of a new block behind the last one. */
    method Append(h: int, b: int)
      requires Valid() && 0 <= h < |heads| && 0 <= b < |items| && !InSome(lists, b)
      modifies Repr
      ensures Valid() && |lists| == |heads| == |old(lists)| && lists == old(lists)[h := old(lists)[h] + [b]]
    {
      Footprint(h, b);
      hide ListHead.Valid, ListIs, InSome, InRepr;
      ghost var before := lists;
      InsertLast(h, b);
      lists := before[h := before[h] + [b]];
    }

    lemma Footprint(h: int, b: int)
      requires Valid() && 0 <= h < |heads| && 0 <= b < |items|
      ensures this in Repr && heads[h] in Repr && items[b] in Repr && |lists| == |heads|
      ensures forall x :: x in heads[h].items ==> x in Repr
    {
      assert items[b] in items;
      ListAt(h);
    }

    method DetachAt(h: int, b: int, ghost k: nat)
      requires Valid() && 0 <= h < |heads| && |lists| == |heads| && k < |lists[h]| && lists[h][k] == b
      modifies heads[h], heads[h].items
      ensures ListIs(heads[h], RemoveAt(lists[h], k)) && InRepr(heads[h])
      ensures forall j :: 0 <= j < |heads| && j != h ==> InRepr(heads[j]) && ListIs(heads[j], lists[j])
    {
      hide ListHead.Valid, RemoveAt;
      ListAt(h);
      Apart(h);
      forall j | 0 <= j < |heads| ensures ListIs(heads[j], lists[j]) && InRepr(heads[j]) { ListAt(j); }
      ghost var before := heads[h].items;
      assert items[b] in heads[h].items;
      var item := heads[h].Detach(items[b], k);
      hide ListIs;
      forall j | 0 <= j < |heads| && j != h ensures InRepr(heads[j]) && ListIs(heads[j], lists[j]) {
        assert heads[j] != heads[h];
        assert unchanged(heads[j]);
        ghost var others := old(heads[j].items);
        forall i | 0 <= i < |others| ensures unchanged(others[i]) {
          assert others[i] in others;
          assert others[i] !in before;
        }
      }
      RemovedIs(heads[h], lists[h], before, k);
    }

    lemma RemovedIs(head: ListHead, q: seq<int>, before: seq<ListItem>, k: nat)
      requires head.Valid() && |before| == |q| && k < |q| && head.items == RemoveAt(before, k)
      requires head in Repr && forall x :: x in before ==> x in Repr
      requires forall i :: 0 <= i < |q| ==> 0 <= q[i] < |items| && before[i] == items[q[i]]
      ensures ListIs(head, RemoveAt(q, k)) && InRepr(head)
    {
      hide ListHead.Valid;
    }

    /** List_detach of a given block. */
    method Detach(h: int, b: int)
      requires Valid() && 0 <= h < |heads| && |lists| == |heads| && b in lists[h]
      modifies Repr
      ensures Valid() && |lists| == |heads| == |old(lists)| && lists == old(lists)[h := Remove(old(lists)[h], b)]
    {
      HeaderListed(h, b);
      Footprint(h, b);
      hide ListHead.Valid, ListIs, InRepr, RemoveAt;
      ghost var before, k := lists, IndexOf(lists[h], b);
      DetachAt(h, b, k);
      lists := before[h := Remove(before[h], b)];
    }

    /** List_init: the list forgets its blocks. */
    method Clear(h: int)
      requires Valid() && 0 <= h < |heads|
      modifies Repr
      ensures Valid() && |lists| == |heads| == |old(lists)| && lists == old(lists)[h := []]
    {
      hide ListHead.Valid;
      forall k | 0 <= k < |heads| ensures ListIs(heads[k], lists[k]) && InRepr(heads[k]) { ListAt(k); }
      assert heads[h] in heads;
      heads[h].Init();
      hide ListIs;
      ghost var before := lists;
      lists := before[h := []];
      EmptyIs(heads[h]);
    }

    lemma EmptyIs(head: ListHead)
      requires head.Valid() && head.items == [] && head in Repr
      ensures ListIs(head, []) && InRepr(head)
    {
    }
  }

  // ---------- initialisation ----------

  method NewItems(n: nat) returns (xs: seq<ListItem>)
    ensures |xs| == n && forall i :: 0 <= i < n ==> fresh(xs[i]) && xs[i].idx == i
  {
    xs := [];
    for i := 0 to n
      invariant |xs| == i && forall j :: 0 <= j < i ==> fresh(xs[j]) && xs[j].idx == j
    {
      var x := new ListItem(i);
      xs := xs + [x];
    }
  }

  method NewHeads(n: nat) returns (hs: seq<ListHead>)
    ensures |hs| == n && Distinct(hs) && forall i :: 0 <= i < n ==> fresh(hs[i]) && hs[i].Valid() && hs[i].items == []
  {
    hs := [];
    for i := 0 to n
      invariant |hs| == i && Distinct(hs)
      invariant forall j :: 0 <= j < i ==> fresh(hs[j]) && hs[j].Valid() && hs[j].items == []
    {
      var h := new ListHead();
      hs := hs + [h];
    }
  }

  /** n empty lists over m blocks. */
  method NewTable(n: nat, m: nat) returns (t: ListTable)
    ensures fresh(t.Repr) && t.Valid() && |t.heads| == n && |t.items| == m && t.lists == seq(n, _ => [])
  {
    hide ListHead.Valid, ListTable.Valid;
    var hs := NewHeads(n);
    var xs := NewItems(m);
    t := new ListTable(hs, xs);
  }
}
