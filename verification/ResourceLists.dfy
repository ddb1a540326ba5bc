/** The linked lists of the resource part: the descriptors of each process, the entries of each resource and
    the resources that exist. */
module ResourceLists {
  import opened Sequences
  import opened ListTables

  class Lists {
    const held: ListTable         // one list for each process, over descriptor blocks
    const entries: ListTable      // one list for each resource, over descriptor pointer blocks
    const listed: ListTable       // one list, over resource blocks
    ghost const Repr: set<object>

    ghost predicate Shape() {
      && Repr == {this} + held.Repr + entries.Repr + listed.Repr
      && held.Repr !! entries.Repr && entries.Repr !! listed.Repr && listed.Repr !! held.Repr
      && this !in held.Repr + entries.Repr + listed.Repr
      && held in held.Repr && entries in entries.Repr && listed in listed.Repr && |listed.heads| == 1
    }

    ghost predicate Valid()
      reads this, Repr
    {
      && Shape() && held.Valid() && entries.Valid() && listed.Valid()
      && |held.lists| == |held.heads| && |entries.lists| == |entries.heads| && |listed.lists| == 1
    }

    constructor (h: ListTable, e: ListTable, l: ListTable)
      requires h.Valid() && e.Valid() && l.Valid() && |l.heads| == 1
      requires h.Repr !! e.Repr && e.Repr !! l.Repr && l.Repr !! h.Repr
      ensures Valid() && held == h && entries == e && listed == l
      ensures Repr == {this} + h.Repr + e.Repr + l.Repr
    {
      h.Sizes();
      e.Sizes();
      l.Sizes();
      hide ListTable.Valid;
      held, entries, listed := h, e, l;
      Repr := {this} + h.Repr + e.Repr + l.Repr;
    }

    /** List_insert into the descriptors of a process. */
    method AddHeld(p: int, d: int)
      requires Valid() && 0 <= p < |held.heads| && 0 <= d < |held.items| && !InSome(held.lists, d)
      modifies Repr
      ensures Valid() && |held.lists| == |old(held.lists)| == |held.heads|
      ensures held.lists == old(held.lists)[p := old(held.lists)[p] + [d]]
      ensures entries.lists == old(entries.lists) && listed.lists == old(listed.lists)
    {
      hide ListTable.Valid, InSome;
      held.Append(p, d);
    }

    /** List_detach from the descriptors of a process. */
    method DropHeld(p: int, d: int)
      requires Valid() && 0 <= p < |held.heads| && d in held.lists[p]
      modifies Repr
      ensures Valid() && |held.lists| == |old(held.lists)| == |held.heads|
      ensures held.lists == old(held.lists)[p := Remove(old(held.lists)[p], d)]
      ensures entries.lists == old(entries.lists) && listed.lists == old(listed.lists)
    {
      hide ListTable.Valid, Remove;
      held.Detach(p, d);
    }

    /** List_init of the descriptors of a process. */
    method ClearHeld(p: int)
      requires Valid() && 0 <= p < |held.heads|
      modifies Repr
      ensures Valid() && |held.lists| == |old(held.lists)| == |held.heads|
      ensures held.lists == old(held.lists)[p := []]
      ensures entries.lists == old(entries.lists) && listed.lists == old(listed.lists)
    {
      hide ListTable.Valid;
      held.Clear(p);
    }

    /** List_insert into the entries of a resource. */
    method AddEntry(h: int, x: int)
      requires Valid() && 0 <= h < |entries.heads| && 0 <= x < |entries.items| && !InSome(entries.lists, x)
      modifies Repr
      ensures Valid() && |entries.lists| == |old(entries.lists)| == |entries.heads|
      ensures entries.lists == old(entries.lists)[h := old(entries.lists)[h] + [x]]
      ensures held.lists == old(held.lists) && listed.lists == old(listed.lists)
    {
      hide ListTable.Valid, InSome;
      entries.Append(h, x);
    }

    /** List_detach from the entries of a resource. */
    method DropEntry(h: int, x: int)
      requires Valid() && 0 <= h < |entries.heads| && x in entries.lists[h]
      modifies Repr
      ensures Valid() && |entries.lists| == |old(entries.lists)| == |entries.heads|
      ensures entries.lists == old(entries.lists)[h := Remove(old(entries.lists)[h], x)]
      ensures held.lists == old(held.lists) && listed.lists == old(listed.lists)
    {
      hide ListTable.Valid, Remove;
      entries.Detach(h, x);
    }

    /** List_init of the entries of a resource. */
    method ClearEntries(h: int)
      requires Valid() && 0 <= h < |entries.heads|
      modifies Repr
      ensures Valid() && |entries.lists| == |old(entries.lists)| == |entries.heads|
      ensures entries.lists == old(entries.lists)[h := []]
      ensures held.lists == old(held.lists) && listed.lists == old(listed.lists)
    {
      hide ListTable.Valid;
      entries.Clear(h);
    }

    /** List_insert into the resource list. */
    method AddListed(h: int)
      requires Valid() && 0 <= h < |listed.items| && !InSome(listed.lists, h)
      modifies Repr
      ensures Valid() && |listed.lists| == |old(listed.lists)| == |listed.heads|
      ensures listed.lists == old(listed.lists)[0 := old(listed.lists)[0] + [h]]
      ensures held.lists == old(held.lists) && entries.lists == old(entries.lists)
    {
      hide ListTable.Valid, InSome;
      listed.Append(0, h);
    }

    /** List_detach from the resource list. */
    method DropListed(h: int)
      requires Valid() && h in listed.lists[0]
      modifies Repr
      ensures Valid() && |listed.lists| == |old(listed.lists)| == |listed.heads|
      ensures listed.lists == old(listed.lists)[0 := Remove(old(listed.lists)[0], h)]
      ensures held.lists == old(held.lists) && entries.lists == old(entries.lists)
    {
      hide ListTable.Valid, Remove;
      listed.Detach(0, h);
    }
  }

  /** The empty lists of a kernel of this size. */
  method NewLists(processes: nat, resources: nat, descriptors: nat) returns (l: Lists)
    ensures fresh(l.Repr) && l.Valid()
    ensures |l.held.heads| == processes && |l.held.items| == descriptors
    ensures |l.entries.heads| == resources && |l.entries.items| == descriptors && |l.listed.items| == resources
    ensures l.held.lists == seq(processes, _ => []) && l.entries.lists == seq(resources, _ => [])
    ensures l.listed.lists == [[]]
  {
    hide ListTable.Valid;
    var h := NewTable(processes, descriptors);
    var e := NewTable(resources, descriptors);
    var r := NewTable(1, resources);
    l := new Lists(h, e, r);
  }
}
