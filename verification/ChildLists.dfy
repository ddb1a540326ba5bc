/** The lists of children: PCBPtr blocks from their pool, each with a pointer to a PCB, in one linked list for
    each PCB. */
module ChildLists {
  import opened Sequences
  import opened Pools
  import opened ListTables

  const SIZEOF_PCBPTR := 24

  class PCBPtr {
    var pcb: int

    constructor () {
      pcb := -1;
    }
  }

  class Children {
    const table: ListTable
    const ptrs: seq<PCBPtr>
    const pool: PoolAllocator
    ghost const links: array<int>
    ghost const Repr: set<object>
    ghost var children: seq<seq<int>>     // the PCBs in each list

    ghost predicate Shape() {
      && {this, table, pool, links} <= Repr && table.Repr <= Repr && (forall x :: x in ptrs ==> x in Repr)
      && this !in table.Repr && pool !in table.Repr && links !in table.Repr && table in table.Repr
      && (forall x :: x in ptrs ==> x !in table.Repr) && Distinct(ptrs)
      && |ptrs| == |table.items|
    }

    ghost predicate PoolOk()
      reads pool, links
    {
      pool.freeList == links && pool.Valid() && pool.sizeMax == |ptrs|
    }

    /** The list of entries q leads to the PCBs of c. */
    ghost predicate Leads(q: seq<int>, c: seq<int>)
      reads ptrs
    {
      |q| == |c| && forall i :: 0 <= i < |q| ==> 0 <= q[i] < |ptrs| && ptrs[q[i]].pcb == c[i]
    }

    ghost predicate AllLead(lists: seq<seq<int>>, cs: seq<seq<int>>)
      reads ptrs
    {
      |cs| == |lists| && forall h :: 0 <= h < |lists| ==> Leads(lists[h], cs[h])
    }

    ghost predicate Valid()
      reads this, Repr
    {
      && Shape() && table.Valid() && PoolOk() && |table.lists| == |table.heads|
      && AllLead(table.lists, children) && InUse(table.lists, pool.free)
    }

    constructor (t: ListTable, xs: seq<PCBPtr>, p: PoolAllocator)
      requires t.Valid() && p.Valid() && p.sizeMax == |xs| == |t.items| && t.lists == seq(|t.heads|, _ => [])
      requires p !in t.Repr && p.freeList !in t.Repr && (forall x :: x in xs ==> x !in t.Repr) && Distinct(xs)
      ensures Valid() && table == t && ptrs == xs && pool == p && children == seq(|t.heads|, _ => [])
      ensures {this, p} <= Repr
      ensures forall x :: x in Repr ==> x == this || x == p || x == p.freeList || x in t.Repr || x in xs
    {
      t.Sizes();
      hide ListTable.Valid, PoolAllocator.Valid;
      table, ptrs, pool, links, children := t, xs, p, p.freeList, seq(|t.heads|, _ => []);
      ghost var own: set<object>, blocks: set<object> := {p, p.freeList}, set x | x in xs;
      Repr := {this} + own + blocks + t.Repr;
    }

    // ---------- entries and PCBs ----------

    lemma Parts()
      requires Valid()
      ensures {this, table, pool, links} <= Repr && table.Repr <= Repr && pool.freeList == links
      ensures {this, pool, links} !! table.Repr && |children| == |table.lists| == |table.heads|
      ensures |ptrs| == |table.items|
      ensures forall x :: 0 <= x < |ptrs| ==> ptrs[x] in Repr && ptrs[x] !in table.Repr
      ensures Shape() && table.Valid() && PoolOk() && AllLead(table.lists, children) && InUse(table.lists, pool.free)
      ensures pool.Valid() && pool.sizeMax == |ptrs|
    {
      hide ListTable.Valid, PoolAllocator.Valid, Leads, InUse;
      assert forall x :: 0 <= x < |ptrs| ==> ptrs[x] in ptrs;
    }

    lemma Compose()
      requires Shape() && table.Valid() && PoolOk() && |table.lists| == |table.heads|
      requires AllLead(table.lists, children) && InUse(table.lists, pool.free)
      ensures Valid()
    {
    }

    lemma LeadsAt(lists: seq<seq<int>>, cs: seq<seq<int>>, h: int, k: nat)
      requires AllLead(lists, cs) && 0 <= h < |lists| && k < |lists[h]|
      ensures |cs| == |lists| && |cs[h]| == |lists[h]|
      ensures 0 <= lists[h][k] < |ptrs| && ptrs[lists[h][k]].pcb == cs[h][k]
    {
    }

    lemma Lengths(lists: seq<seq<int>>, cs: seq<seq<int>>)
      requires AllLead(lists, cs)
      ensures |cs| == |lists| && forall h :: 0 <= h < |lists| ==> |cs[h]| == |lists[h]|
    {
    }

    /** The pointer of an entry that is in no list. */
    method SetPointer(x: int, c: int, ghost lists: seq<seq<int>>, ghost cs: seq<seq<int>>)
      requires 0 <= x < |ptrs| && Distinct(ptrs) && AllLead(lists, cs) && !InSome(lists, x)
      modifies ptrs[x]
      ensures AllLead(lists, cs) && ptrs[x].pcb == c
    {
      ptrs[x].pcb := c;
      forall h, i | 0 <= h < |lists| && 0 <= i < |lists[h]| ensures lists[h][i] != x {
        assert lists[h][i] in lists[h];
      }
    }

    lemma LeadsAppended(lists: seq<seq<int>>, cs: seq<seq<int>>, h: int, x: int, c: int)
      requires AllLead(lists, cs) && 0 <= h < |lists| && 0 <= x < |ptrs| && ptrs[x].pcb == c
      ensures |cs| == |lists| && AllLead(lists[h := lists[h] + [x]], cs[h := cs[h] + [c]])
    {
    }

    lemma LeadsRemoved(lists: seq<seq<int>>, cs: seq<seq<int>>, h: int, k: nat)
      requires AllLead(lists, cs) && 0 <= h < |lists| && k < |lists[h]|
      ensures |cs| == |lists| && |cs[h]| == |lists[h]|
      ensures AllLead(lists[h := RemoveAt(lists[h], k)], cs[h := RemoveAt(cs[h], k)])
    {
    }

    lemma LeadsCleared(lists: seq<seq<int>>, cs: seq<seq<int>>, h: int)
      requires AllLead(lists, cs) && 0 <= h < |lists|
      ensures |cs| == |lists| && AllLead(lists[h := []], cs[h := []])
    {
    }

    // ---------- updates ----------

    /** PCBPtr_alloc, and List_insert behind the last child. */
    method Add(h: int, c: int)
      requires Valid() && 0 <= h < |table.heads| && pool.free != []
      modifies Repr
      ensures Valid() && |children| == |old(children)| == |table.heads|
      ensures children == old(children)[h := old(children)[h] + [c]] && pool.free == old(pool.free)[1..]
    {
      hide *;
      Parts();
      ghost var lists, cs, free := table.lists, children, pool.free;
      NewEntry(lists, free);
      DistinctPtrs();
      var x := pool.Alloc();
      SetPointer(x, c, lists, cs);
      table.Append(h, x);
      children := cs[h := cs[h] + [c]];
      LeadsAppended(lists, cs, h, x, c);
      UsedAppended(lists, h, x, free);
      StillPool();
      Compose();
    }

    lemma DistinctPtrs()
      requires Shape()
      ensures Distinct(ptrs)
    {
    }

    lemma StillPool()
      requires pool.freeList == links && pool.Valid() && pool.sizeMax == |ptrs|
      ensures PoolOk()
    {
    }

    /** List_detach of an entry; its block stays in use. */
    method Detach(h: int, x: int, ghost k: nat)
      requires Valid() && 0 <= h < |table.heads| && |table.lists| == |table.heads|
      requires k < |table.lists[h]| && table.lists[h][k] == x
      modifies Repr
      ensures Valid() && |children| == |old(children)| == |table.heads| && k < |old(children)[h]|
      ensures children == old(children)[h := RemoveAt(old(children)[h], k)] && pool.free == old(pool.free)
      ensures 0 <= x < |ptrs| && ptrs[x].pcb == old(children)[h][k] && !InSome(table.lists, x) && x !in pool.free
      ensures table.lists == old(table.lists)[h := RemoveAt(old(table.lists)[h], k)]
    {
      hide *;
      Parts();
      ghost var lists, cs := table.lists, children;
      table.Once(h, x);
      LeadsAt(lists, cs, h, k);
      LeadsRemoved(lists, cs, h, k);
      Removal(lists[h], x, k);
      UsedRemoved(lists, h, k, pool.free);
      NowhereElse(lists, h, k);
      table.Detach(h, x);
      children := cs[h := RemoveAt(cs[h], k)];
      StillPool();
      Compose();
    }

    /** PCBPtr_free of an entry that is in no list. */
    method FreeEntry(x: int)
      requires Valid() && 0 <= x < |ptrs| && !InSome(table.lists, x) && x !in pool.free
      modifies Repr
      ensures Valid() && children == old(children) && pool.free == [x] + old(pool.free)
    {
      hide *;
      Parts();
      UsedFreed(table.lists, x, pool.free);
      var r := pool.Free(x);
      StillPool();
      Compose();
    }

    /** List_insert of an entry that has been detached. */
    method Insert(h: int, x: int)
      requires Valid() && 0 <= h < |table.heads| && 0 <= x < |ptrs| && !InSome(table.lists, x) && x !in pool.free
      modifies Repr
      ensures Valid() && |children| == |old(children)| == |table.heads| && pool.free == old(pool.free)
      ensures children == old(children)[h := old(children)[h] + [old(ptrs[x].pcb)]]
    {
      hide *;
      Parts();
      ghost var lists, cs, c := table.lists, children, ptrs[x].pcb;
      UsedInserted(lists, h, x, pool.free);
      LeadsAppended(lists, cs, h, x, c);
      table.Append(h, x);
      children := cs[h := cs[h] + [c]];
      StillPool();
      Compose();
    }

    /** List_init: the entries, if any, are forgotten. */
    method Clear(h: int)
      requires Valid() && 0 <= h < |table.heads|
      modifies Repr
      ensures Valid() && |children| == |old(children)| == |table.heads|
      ensures children == old(children)[h := []] && pool.free == old(pool.free)
    {
      hide *;
      Parts();
      ghost var lists, cs := table.lists, children;
      UsedCleared(lists, h, pool.free);
      LeadsCleared(lists, cs, h);
      table.Clear(h);
      children := cs[h := []];
      StillPool();
      Compose();
    }

    /** Blocks that leave the pool for another use and do not come back. */
    method Take(n: nat)
      requires Valid() && n <= |pool.free|
      modifies Repr
      ensures Valid() && children == old(children) && |pool.free| == |old(pool.free)| - n
    {
      hide *;
      Parts();
      ghost var all := pool.free;
      for i := 0 to n
        invariant {this, table, pool, links} <= Repr && {this, pool, links} !! table.Repr && table.Repr <= Repr
        invariant Valid() && children == old(children) && |pool.free| == |all| - i
      {
        Parts();
        UsedPopped(table.lists, pool.free);
        var x := pool.Alloc();
        StillPool();
        Compose();
      }
    }

    // ---------- reading ----------

    /** The first entry of a list, or -1. */
    method First(h: int) returns (x: int)
      requires Valid() && 0 <= h < |table.heads|
      ensures |children| == |table.lists| == |table.heads| && |children[h]| == |table.lists[h]|
      ensures children[h] == [] <==> x == -1
      ensures x != -1 ==> x == table.lists[h][0] && 0 <= x < |ptrs| && ptrs[x].pcb == children[h][0]
    {
      hide *;
      Parts();
      Lengths(table.lists, children);
      x := table.First(h);
      if x != -1 {
        LeadsAt(table.lists, children, h, 0);
      }
    }

    /** The entry after the k-th, or -1. */
    method Next(x: int, ghost h: int, ghost k: nat) returns (y: int)
      requires Valid() && 0 <= h < |table.heads| && |table.lists| == |table.heads| && k < |table.lists[h]|
      requires table.lists[h][k] == x
      ensures |children| == |table.lists| && |children[h]| == |table.lists[h]|
      ensures k + 1 == |children[h]| <==> y == -1
      ensures y != -1 ==>
                && k + 1 < |children[h]| && y == table.lists[h][k + 1]
                && 0 <= y < |ptrs| && ptrs[y].pcb == children[h][k + 1]
    {
      hide *;
      Parts();
      Lengths(table.lists, children);
      y := table.Next(x, h, k);
      if y != -1 {
        LeadsAt(table.lists, children, h, k + 1);
      }
    }
  }

  // ---------- which blocks are in use ----------

  /** An entry in a list is in use. */
  ghost predicate InUse(lists: seq<seq<int>>, free: seq<int>) {
    forall x :: InSome(lists, x) ==> x !in free
  }

  lemma NewEntry(lists: seq<seq<int>>, free: seq<nat>)
    requires InUse(lists, free) && free != []
    ensures !InSome(lists, free[0])
  {
  }

  lemma UsedAppended(lists: seq<seq<int>>, h: int, x: int, free: seq<nat>)
    requires InUse(lists, free) && free != [] && x == free[0] && x !in free[1..] && 0 <= h < |lists|
    ensures InUse(lists[h := lists[h] + [x]], free[1..])
  {
    UsedPopped(lists, free);
    UsedInserted(lists, h, x, free[1..]);
  }

  lemma UsedPopped(lists: seq<seq<int>>, free: seq<nat>)
    requires InUse(lists, free)
    ensures free != [] ==> InUse(lists, free[1..])
  {
    if free != [] {
      assert forall x: int :: x in free[1..] ==> x in free;
    }
  }

  lemma UsedInserted(lists: seq<seq<int>>, h: int, x: int, free: seq<int>)
    requires InUse(lists, free) && x !in free && 0 <= h < |lists|
    ensures InUse(lists[h := lists[h] + [x]], free)
  {
    var after := lists[h := lists[h] + [x]];
    forall y | InSome(after, y) ensures y !in free {
      var k :| 0 <= k < |after| && y in after[k];
      assert y == x || y in lists[k];
    }
  }

  lemma UsedRemoved(lists: seq<seq<int>>, h: int, k: nat, free: seq<int>)
    requires InUse(lists, free) && 0 <= h < |lists| && k < |lists[h]|
    ensures InUse(lists[h := RemoveAt(lists[h], k)], free) && lists[h][k] !in free
  {
    var after := lists[h := RemoveAt(lists[h], k)];
    assert lists[h][k] in lists[h];
    assert InSome(lists, lists[h][k]);
    forall y | InSome(after, y) ensures y !in free {
      var j :| 0 <= j < |after| && y in after[j];
      assert y in lists[j];
    }
  }

  lemma UsedCleared(lists: seq<seq<int>>, h: int, free: seq<int>)
    requires InUse(lists, free) && 0 <= h < |lists|
    ensures InUse(lists[h := []], free)
  {
    var after := lists[h := []];
    forall y | InSome(after, y) ensures y !in free {
      var j :| 0 <= j < |after| && y in after[j];
      assert y in lists[j];
    }
  }

  lemma UsedFreed(lists: seq<seq<int>>, x: int, free: seq<int>)
    requires InUse(lists, free) && !InSome(lists, x)
    ensures InUse(lists, [x] + free)
  {
  }

  /** A block that was in one place is in none once it has been removed there. */
  lemma NowhereElse(lists: seq<seq<int>>, h: int, k: nat)
    requires 0 <= h < |lists| && k < |lists[h]| && Distinct(lists[h])
    requires forall j :: 0 <= j < |lists| && j != h ==> lists[h][k] !in lists[j]
    ensures !InSome(lists[h := RemoveAt(lists[h], k)], lists[h][k])
  {
  }

  lemma Removal(s: seq<int>, x: int, k: nat)
    requires Distinct(s) && k < |s| && s[k] == x
    ensures Remove(s, x) == RemoveAt(s, k)
  {
    IndexIs(s, k, x);
  }

  // ---------- initialisation ----------

  method NewPtrs(n: nat) returns (xs: seq<PCBPtr>)
    ensures |xs| == n && Distinct(xs) && forall i :: 0 <= i < n ==> fresh(xs[i])
  {
    xs := [];
    for i := 0 to n
      invariant |xs| == i && Distinct(xs) && forall j :: 0 <= j < i ==> fresh(xs[j])
    {
      var x := new PCBPtr();
      xs := xs + [x];
    }
  }

  /** PCB_init as far as PCBPtr blocks are concerned, for n PCBs and as many blocks. */
  method NewChildren(n: nat) returns (c: Children)
    requires n > 0
    ensures fresh(c.Repr) && c.Valid() && {c, c.pool} <= c.Repr && |c.table.heads| == n && c.children == seq(n, _ => [])
    ensures c.pool.free == seq(n, i => i)
  {
    hide PoolAllocator.Valid, ListTable.Valid, Children.Valid;
    var t := NewTable(n, n);
    var xs := NewPtrs(n);
    var p := new PoolAllocator();
    var r := p.Init(SIZEOF_PCBPTR, n, n * (SIZEOF_PCBPTR + SIZEOF_INT));
    c := new Children(t, xs, p);
  }
}
