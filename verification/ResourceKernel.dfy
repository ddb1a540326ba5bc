/** The resource part of the kernel as the system calls update it in place: resource, descriptor and
    descriptor-pointer blocks from their pools, the resource list, the descriptor list of each process,
    and the message store.  Each operation is proved to do what the resource model says. */
module ResourceKernel {
  import opened Sequences
  import opened Pools
  import opened ResourceModel
  import opened Descriptors
  import opened ResourceForms
  import opened ResourceSteps
  import opened ListTables
  import opened ResourceLists
  import MS = MessageStore

  const SIZEOF_RESOURCE := 56
  const SIZEOF_MESSAGE_QUEUE := 96
  const SIZEOF_DESCRIPTOR := 48
  const SIZEOF_DESCRIPTOR_PTR := 24

  class ResourceBlock {
    var id: int
    var kind: int
    var reader: int
    var writer: int

    constructor ()
      ensures ResourceIs(this, NoResource)
    {
      id, kind, reader, writer := 0, STANDARD_RESOURCE_TYPE, NULL, NULL;
    }
  }

  class DescriptorBlock {
    var fd: int
    var resource: int
    var pcb: int
    var ptr: int
    ghost var mode: int

    constructor ()
      ensures DescriptorIs(this, UnusedDescriptor)
    {
      fd, resource, pcb, ptr, mode := 0, NULL, NULL, NULL, 0;
    }
  }

  class PointerBlock {
    var descriptor: int

    constructor ()
      ensures descriptor == NULL
    {
      descriptor := NULL;
    }
  }

  /** What a PCB holds of resources. */
  class HolderBlock {
    var lastFd: int

    constructor ()
      ensures HolderIs(this, Holder(0, []))
    {
      lastFd := 0;
    }
  }

  /** The result registers of a PCB. */
  class Registers {
    var syscallRetvalue: int
    var returnValue: int

    constructor () {
      syscallRetvalue, returnValue := 0, 0;
    }
  }

  ghost predicate ResourceIs(x: ResourceBlock, r: Resource)
    reads x
  {
    x.id == r.id && x.kind == r.kind && x.reader == r.reader && x.writer == r.writer
  }

  ghost predicate DescriptorIs(x: DescriptorBlock, d: Descriptor)
    reads x
  {
    x.fd == d.fd && x.resource == d.res && x.pcb == d.proc && x.ptr == d.ptr && x.mode == d.mode
  }

  ghost predicate HolderIs(x: HolderBlock, h: Holder)
    reads x
  {
    x.lastFd == h.lastFd
  }

  ghost predicate FreshPools(pools: seq<PoolAllocator>, sizes: seq<int>)
    reads pools, set p | p in pools :: p.freeList
  {
    && |pools| == |sizes|
    && (forall i :: 0 <= i < |pools| ==>
          pools[i].Valid() && pools[i].sizeMax == sizes[i] >= 0 && pools[i].free == seq(sizes[i], j => j))
    && (forall i, j :: 0 <= i < j < |pools| ==> pools[i].freeList != pools[j].freeList)
  }

  /** The objects are the kernel's own; the registers are not. */
  ghost predicate Parts(rs: seq<ResourceBlock>, xs: seq<DescriptorBlock>, ps: seq<PointerBlock>, ho: seq<HolderBlock>,
                        rg: seq<Registers>, pools: seq<PoolAllocator>, own: set<object>)
    reads pools
  {
    && (forall i :: 0 <= i < |rs| ==> rs[i] in own) && (forall i :: 0 <= i < |xs| ==> xs[i] in own)
    && (forall i :: 0 <= i < |ps| ==> ps[i] in own) && (forall i :: 0 <= i < |ho| ==> ho[i] in own)
    && (forall i :: 0 <= i < |rg| ==> rg[i] !in own)
    && (forall i :: 0 <= i < |pools| ==> pools[i] in own && pools[i].freeList in own)
  }

  ghost predicate Unused(rs: seq<ResourceBlock>, xs: seq<DescriptorBlock>, ps: seq<PointerBlock>, ho: seq<HolderBlock>)
    reads rs, xs, ps, ho
  {
    && (forall i :: 0 <= i < |rs| ==> ResourceIs(rs[i], NoResource))
    && (forall i :: 0 <= i < |xs| ==> DescriptorIs(xs[i], UnusedDescriptor))
    && (forall i :: 0 <= i < |ps| ==> ps[i].descriptor == NULL)
    && (forall i :: 0 <= i < |ho| ==> HolderIs(ho[i], Holder(0, [])))
  }

  /** What the lists and the store hold. */
  lemma Holds(ls: Lists, st: MS.Store)
    requires ls.Valid() && st.Valid()
    ensures {st, st.pool, st.links} <= st.Repr
    ensures ls.Shape() && {ls, ls.held, ls.entries, ls.listed} <= ls.Repr
    ensures |ls.held.lists| == |ls.held.heads| && |ls.entries.lists| == |ls.entries.heads|
  {
    assert st.Shape();
  }

  lemma Header(x: ResourceBlock, r: Resource)
    requires ResourceIs(x, r)
    ensures x.id == r.id && x.kind == r.kind && x.reader == r.reader && x.writer == r.writer
  {
  }

  class ResourceKernel {
    const standard: nat
    const resources: seq<ResourceBlock>
    const descs: seq<DescriptorBlock>
    const ptrs: seq<PointerBlock>
    const holders: seq<HolderBlock>
    const regs: seq<Registers>
    const srPool: PoolAllocator
    const mqPool: PoolAllocator
    const descPool: PoolAllocator
    const ptrPool: PoolAllocator
    const lists: Lists
    const store: MS.Store
    ghost const srLinks: array<int>
    ghost const mqLinks: array<int>
    ghost const descLinks: array<int>
    ghost const ptrLinks: array<int>
    ghost const Plain: set<object>     // the blocks and their pools
    ghost const OwnRepr: set<object>   // everything but the message store
    ghost const Repr: set<object>
    ghost var lost: seq<int>
    ghost var res: seq<Resource>
    ghost var ds: seq<Descriptor>
    ghost var backs: seq<int>
    ghost var hs: seq<Holder>

    ghost predicate Shape() {
      && Repr == {this} + OwnRepr + store.Repr && OwnRepr !! store.Repr
      && OwnRepr == Plain + lists.Repr && Plain !! lists.Repr && lists.Shape()
      && {lists, lists.held, lists.entries, lists.listed} <= lists.Repr
      && {store, store.pool, store.links} <= store.Repr && this !in OwnRepr + store.Repr
      && {srPool, mqPool, descPool, ptrPool, srLinks, mqLinks, descLinks, ptrLinks} <= Plain
      && srPool != mqPool && srPool != descPool && srPool != ptrPool
      && mqPool != descPool && mqPool != ptrPool && descPool != ptrPool
      && srLinks != mqLinks && srLinks != descLinks && srLinks != ptrLinks
      && mqLinks != descLinks && mqLinks != ptrLinks && descLinks != ptrLinks
      && (forall i :: 0 <= i < |resources| ==> resources[i] in Plain)
      && (forall i :: 0 <= i < |descs| ==> descs[i] in Plain)
      && (forall i :: 0 <= i < |ptrs| ==> ptrs[i] in Plain)
      && (forall i :: 0 <= i < |holders| ==> holders[i] in Plain)
      && (forall i :: 0 <= i < |regs| ==> regs[i] !in Repr) && |regs| == |holders|
      && Distinct(resources) && Distinct(descs) && Distinct(ptrs) && Distinct(holders)
      && standard <= |resources| && |store.heads| == |resources| && |ptrs| == |descs|
      && |lists.held.heads| == |holders| && |lists.held.items| == |descs|
      && |lists.entries.heads| == |resources| == |lists.listed.items| && |lists.entries.items| == |ptrs|
    }

    ghost predicate PoolOk(p: PoolAllocator, links: array<int>, n: int)
      reads p, links
    {
      p.freeList == links && p.Valid() && p.sizeMax == n
    }

    ghost predicate PoolsOk4()
      reads srPool, mqPool, descPool, ptrPool, srLinks, mqLinks, descLinks, ptrLinks
    {
      && PoolOk(srPool, srLinks, standard) && PoolOk(mqPool, mqLinks, |resources| - standard)
      && PoolOk(descPool, descLinks, |descs|) && PoolOk(ptrPool, ptrLinks, |ptrs|)
    }

    /** The blocks hold the records; the messages of a queue are with the store. */
    ghost predicate ResourcesAre(rs: seq<Resource>)
      reads resources
    {
      |rs| == |resources| && forall h :: 0 <= h < |rs| ==> ResourceIs(resources[h], rs[h])
    }

    ghost predicate QueuesAre(rs: seq<Resource>)
      reads store
    {
      |rs| == |store.queues| && forall h :: 0 <= h < |rs| ==> rs[h].msgs == store.queues[h]
    }

    ghost predicate DescriptorsAre(xs: seq<Descriptor>, bs: seq<int>)
      reads descs, ptrs
    {
      && |xs| == |descs| && (forall d :: 0 <= d < |xs| ==> DescriptorIs(descs[d], xs[d]))
      && |bs| == |ptrs| && (forall x :: 0 <= x < |ptrs| ==> ptrs[x].descriptor == bs[x])
    }

    ghost predicate HoldersAre(ho: seq<Holder>)
      reads holders
    {
      |ho| == |holders| && forall p :: 0 <= p < |ho| ==> HolderIs(holders[p], ho[p])
    }

    /** The descriptors of the processes and the entries of the resources are with the lists. */
    ghost predicate ListsAre(rs: seq<Resource>, ho: seq<Holder>)
      reads lists.held, lists.entries
    {
      && |rs| == |lists.entries.lists| && (forall h :: 0 <= h < |rs| ==> rs[h].ptrs == lists.entries.lists[h])
      && |ho| == |lists.held.lists| && (forall p :: 0 <= p < |ho| ==> ho[p].descs == lists.held.lists[p])
    }

    ghost function ListedNow(): seq<int>
      reads lists.listed
    {
      if lists.listed.lists == [] then [] else lists.listed.lists[0]
    }

    /** Everything but the message store. */
    ghost predicate OwnOk()
      reads this, OwnRepr
    {
      && Shape() && PoolsOk4() && lists.Valid()
      && ResourcesAre(res) && DescriptorsAre(ds, backs) && HoldersAre(hs) && ListsAre(res, hs)
    }

    ghost predicate Valid()
      reads this, Repr
    {
      Shape() && store.Valid() && OwnOk() && QueuesAre(res)
    }

    /** The state of the resource model that the kernel is in. */
    ghost function Abs(): State
      reads this, srPool, mqPool, descPool, ptrPool, lists.listed, store, store.pool
    {
      State(res, ListedNow(), srPool.free, Shift(mqPool.free, standard), ds, backs, descPool.free, ptrPool.free,
            hs, store.records, store.pool.free, lost)
    }

    constructor (n: nat, rs: seq<ResourceBlock>, xs: seq<DescriptorBlock>, ps: seq<PointerBlock>, ho: seq<HolderBlock>,
                 rg: seq<Registers>, pools: seq<PoolAllocator>, ls: Lists, st: MS.Store, ghost own: set<object>)
      requires |pools| == 4 && Distinct(pools) && FreshPools(pools, [n, |rs| - n, |xs|, |xs|])
      requires n <= |rs| && |ps| == |xs| && |rg| == |ho| && |st.heads| == |rs|
      requires Distinct(rs) && Distinct(xs) && Distinct(ps) && Distinct(ho)
      requires forall i :: 0 <= i < |rg| ==> rg[i] !in own + ls.Repr + st.Repr
      requires own !! ls.Repr && own !! st.Repr && ls.Repr !! st.Repr
      requires ls.Valid() && |ls.held.heads| == |ho| && |ls.held.items| == |xs|
      requires |ls.entries.heads| == |rs| == |ls.listed.items| && |ls.entries.items| == |xs|
      requires ls.held.lists == seq(|ho|, _ => []) && ls.entries.lists == seq(|rs|, _ => []) && ls.listed.lists == [[]]
      requires Parts(rs, xs, ps, ho, rg, pools, own)
      requires st.Valid() && st.queues == seq(|rs|, _ => []) && st.live == {}
      requires st.pool.free == seq(|st.blocks|, i => i) && st.records == seq(|st.blocks|, _ => Message([], false))
      requires Unused(rs, xs, ps, ho)
      ensures Valid() && Repr == {this} + own + ls.Repr + st.Repr && standard == n && regs == rg && store == st
      ensures Abs() == Boot(n, |rs| - n, |xs|, |ho|, |st.blocks|) && store.live == {}
    {
      Holds(ls, st);
      BootForm(n, |rs| - n, |xs|, |ho|, |st.blocks|);
      hide Boot, MS.Store.Valid, MS.Store.Shape, PoolAllocator.Valid, Shift, ListTable.Valid, Lists.Valid, Lists.Shape;
      standard, resources, descs, ptrs, holders, regs, lists, store := n, rs, xs, ps, ho, rg, ls, st;
      srPool, mqPool, descPool, ptrPool := pools[0], pools[1], pools[2], pools[3];
      srLinks, mqLinks := pools[0].freeList, pools[1].freeList;
      descLinks, ptrLinks := pools[2].freeList, pools[3].freeList;
      Plain, OwnRepr, Repr := own, own + ls.Repr, {this} + own + ls.Repr + st.Repr;
      lost, res := [], seq(|rs|, _ => NoResource);
      ds, backs, hs := seq(|xs|, _ => UnusedDescriptor), seq(|xs|, _ => NULL), seq(|ho|, _ => Holder(0, []));
      new;
      assert Shape();
      hide Shape, Distinct, Parts;
      assert OwnOk();
      hide OwnOk, FreshPools, Unused;
    }

    // ---------- one component at a time ----------

    /** What Resource_alloc writes into a new resource. */
    method SetHeader(h: int, id: int, kind: int)
      requires Valid() && 0 <= h < |resources|
      modifies Repr
      ensures Valid() && store.live == old(store.live)
      ensures Abs() == old(Abs()).SetR(h, old(Abs()).R(h).(id := id, kind := kind))
    {
      hide MS.Store.Valid, PoolAllocator.Valid, Shift, Lists.Valid, Lists.Shape, PoolOk,
        DescriptorsAre, HoldersAre;
      resources[h].id, resources[h].kind := id, kind;
      res := res[h := res[h].(id := id, kind := kind)];
    }

    /** The blocks in the lists are those of the model. */
    lemma Listings()
      requires Valid()
      ensures lists.Valid() && lists in Repr && lists.Repr <= Repr && lists.Repr <= OwnRepr
      ensures |lists.held.lists| == |holders| && |lists.entries.lists| == |resources| && |lists.listed.lists| == 1
      ensures forall p :: 0 <= p < |holders| ==> Abs().H(p).descs == lists.held.lists[p]
      ensures forall h :: 0 <= h < |resources| ==> Abs().R(h).ptrs == lists.entries.lists[h]
      ensures Abs().listed == lists.listed.lists[0]
      ensures lists.held.Valid() && lists.entries.Valid() && lists.listed.Valid() && |lists.listed.heads| == 1
      ensures |lists.held.heads| == |holders| && |lists.held.items| == |descs|
      ensures |lists.entries.heads| == |resources| == |lists.listed.items| && |lists.entries.items| == |ptrs|
    {
      hide MS.Store.Valid, PoolAllocator.Valid, Shift, ListTable.Valid;
    }

    /** A block that the model has in no list is in no list. */
    lemma LooseEntry(x: int)
      requires Valid() && forall k :: x !in Abs().R(k).ptrs
      ensures !InSome(lists.entries.lists, x)
    {
      hide *;
      Listings();
      forall h | 0 <= h < |lists.entries.lists| ensures x !in lists.entries.lists[h] {
        assert Abs().R(h).ptrs == lists.entries.lists[h];
      }
      NotInSome(lists.entries.lists, x);
    }

    /** The lists have changed and the records not yet. */
    ghost predicate Unrecorded(rs: seq<Resource>, ho: seq<Holder>)
      reads this, Repr
    {
      && Shape() && store.Valid() && PoolsOk4() && lists.Valid()
      && ResourcesAre(res) && DescriptorsAre(ds, backs) && HoldersAre(hs) && QueuesAre(res) && ListsAre(rs, ho)
    }

    lemma Components()
      requires Valid()
      ensures Shape() && store.Valid() && PoolsOk4() && ResourcesAre(res) && DescriptorsAre(ds, backs) && HoldersAre(hs)
      ensures QueuesAre(res)
      ensures |res| == |lists.entries.lists| && forall h :: 0 <= h < |res| ==> res[h].ptrs == lists.entries.lists[h]
      ensures |hs| == |lists.held.lists| && forall p :: 0 <= p < |hs| ==> hs[p].descs == lists.held.lists[p]
    {
    }

    /** Nothing but the lists themselves is in their footprint. */
    lemma Outside()
      requires Shape()
      ensures {srPool, mqPool, descPool, ptrPool, srLinks, mqLinks, descLinks, ptrLinks} !! lists.Repr
      ensures store.Repr !! lists.Repr && {store, store.pool, store.links} <= store.Repr && this !in lists.Repr
      ensures forall i :: 0 <= i < |resources| ==> resources[i] !in lists.Repr
      ensures forall i :: 0 <= i < |descs| ==> descs[i] !in lists.Repr
      ensures forall i :: 0 <= i < |ptrs| ==> ptrs[i] !in lists.Repr
      ensures forall i :: 0 <= i < |holders| ==> holders[i] !in lists.Repr
    {
      hide Distinct, Lists.Shape;
    }

    /** One list of entries has changed. */
    lemma OneEntryList(before: seq<seq<int>>, h: int, q: seq<int>)
      requires |res| == |before| && 0 <= h < |res| && forall k :: 0 <= k < |res| ==> res[k].ptrs == before[k]
      requires lists.entries.lists == before[h := q]
      requires |hs| == |lists.held.lists| && forall p :: 0 <= p < |hs| ==> hs[p].descs == lists.held.lists[p]
      ensures ListsAre(WithPtrs(res, h, q), hs)
    {
    }

    lemma OneHeldList(before: seq<seq<int>>, p: int, q: seq<int>)
      requires |hs| == |before| && 0 <= p < |hs| && forall k :: 0 <= k < |hs| ==> hs[k].descs == before[k]
      requires lists.held.lists == before[p := q]
      requires |res| == |lists.entries.lists| && forall h :: 0 <= h < |res| ==> res[h].ptrs == lists.entries.lists[h]
      ensures ListsAre(res, WithDescs(hs, p, q))
    {
    }

    lemma Compose(rs: seq<Resource>, ho: seq<Holder>)
      requires Shape() && store.Valid() && PoolsOk4() && ResourcesAre(res) && DescriptorsAre(ds, backs)
      requires HoldersAre(hs) && QueuesAre(res) && lists.Valid() && ListsAre(rs, ho)
      ensures Unrecorded(rs, ho)
    {
      hide Shape, MS.Store.Valid, PoolsOk4, ResourcesAre, DescriptorsAre, HoldersAre, QueuesAre, Lists.Valid, ListsAre;
    }

    lemma ListedIs()
      ensures Abs() == State(res, if lists.listed.lists == [] then [] else lists.listed.lists[0], srPool.free,
                             Shift(mqPool.free, standard), ds, backs, descPool.free, ptrPool.free, hs,
                             store.records, store.pool.free, lost)
    {
    }

    lemma Within()
      requires Valid()
      ensures lists.Repr <= Repr && this in Repr && |res| == |resources| && |hs| == |holders|
      ensures Abs().res == res && Abs().holders == hs
      ensures this !in lists.Repr && store !in lists.Repr
    {
      hide MS.Store.Valid, PoolAllocator.Valid, Shift, Lists.Valid, Lists.Shape;
    }

    ghost method RecordEntries(h: int, q: seq<int>)
      requires 0 <= h < |res| && Unrecorded(WithPtrs(res, h, q), hs)
      modifies this`res
      ensures Valid() && Abs() == old(Abs()).(res := WithPtrs(old(Abs()).res, h, q))
    {
      hide MS.Store.Valid, PoolOk, Shift, Lists.Valid, Lists.Shape, DescriptorsAre, HoldersAre, Distinct;
      res := WithPtrs(res, h, q);
    }

    ghost method RecordHeld(p: int, q: seq<int>)
      requires 0 <= p < |hs| && Unrecorded(res, WithDescs(hs, p, q))
      modifies this`hs
      ensures Valid() && Abs() == old(Abs()).(holders := WithDescs(old(Abs()).holders, p, q))
    {
      hide MS.Store.Valid, PoolOk, Shift, Lists.Valid, Lists.Shape, DescriptorsAre, ResourcesAre, QueuesAre, Distinct;
      hs := WithDescs(hs, p, q);
    }

    method EntryIn(h: int, x: int)
      requires Valid() && 0 <= h < |resources| && 0 <= x < |ptrs| && !InSome(lists.entries.lists, x)
      modifies lists.Repr
      ensures |res| == |resources| && |hs| == |holders| && Unrecorded(WithPtrs(res, h, res[h].ptrs + [x]), hs)
      ensures Abs() == old(Abs()) && store.live == old(store.live)
    {
      hide *;
      Components();
      Outside();
      Within();
      Listings();
      ListedIs();
      ghost var before := lists.entries.lists;
      lists.AddEntry(h, x);
      OneEntryList(before, h, res[h].ptrs + [x]);
      Compose(WithPtrs(res, h, res[h].ptrs + [x]), hs);
      ListedIs();
    }

    method EntryOut(h: int, x: int)
      requires Valid() && 0 <= h < |resources| && x in Abs().R(h).ptrs
      modifies lists.Repr
      ensures |res| == |resources| && |hs| == |holders| && Unrecorded(WithPtrs(res, h, Remove(res[h].ptrs, x)), hs)
      ensures Abs() == old(Abs()) && store.live == old(store.live)
    {
      hide *;
      Components();
      Outside();
      Within();
      Listings();
      ListedIs();
      ghost var before := lists.entries.lists;
      lists.DropEntry(h, x);
      OneEntryList(before, h, Remove(res[h].ptrs, x));
      Compose(WithPtrs(res, h, Remove(res[h].ptrs, x)), hs);
      ListedIs();
    }

    method NoEntries(h: int)
      requires Valid() && 0 <= h < |resources|
      modifies lists.Repr
      ensures |res| == |resources| && |hs| == |holders| && Unrecorded(WithPtrs(res, h, []), hs)
      ensures Abs() == old(Abs()) && store.live == old(store.live)
    {
      hide *;
      Components();
      Outside();
      Within();
      Listings();
      ListedIs();
      ghost var before := lists.entries.lists;
      lists.ClearEntries(h);
      OneEntryList(before, h, []);
      Compose(WithPtrs(res, h, []), hs);
      ListedIs();
    }

    /** List_insert of an entry into a resource that is not entered anywhere. */
    method AppendEntry(h: int, x: int)
      requires Valid() && 0 <= h < |resources| && 0 <= x < |ptrs| && forall k :: x !in Abs().R(k).ptrs
      modifies Repr
      ensures Valid() && store.live == old(store.live)
      ensures Abs() == old(Abs()).SetR(h, old(Abs()).R(h).(ptrs := old(Abs()).R(h).ptrs + [x]))
    {
      hide *;
      Within();
      LooseEntry(x);
      ghost var s, q := Abs(), res[h].ptrs + [x];
      PtrsInState(s, h, q);
      EntryIn(h, x);
      RecordEntries(h, q);
    }

    /** List_detach of an entry. */
    method RemoveEntry(h: int, x: int)
      requires Valid() && 0 <= h < |resources| && x in Abs().R(h).ptrs
      modifies Repr
      ensures Valid() && store.live == old(store.live)
      ensures Abs() == old(Abs()).SetR(h, old(Abs()).R(h).(ptrs := Remove(old(Abs()).R(h).ptrs, x)))
    {
      hide *;
      Within();
      ghost var s, q := Abs(), Remove(res[h].ptrs, x);
      PtrsInState(s, h, q);
      EntryOut(h, x);
      RecordEntries(h, q);
    }

    /** List_init of the entries of a resource. */
    method ResetEntries(h: int)
      requires Valid() && 0 <= h < |resources|
      modifies Repr
      ensures Valid() && store.live == old(store.live)
      ensures Abs() == old(Abs()).SetR(h, old(Abs()).R(h).(ptrs := []))
    {
      hide *;
      Within();
      ghost var s, q := Abs(), [];
      PtrsInState(s, h, q);
      NoEntries(h);
      RecordEntries(h, q);
    }

    method HasEntries(h: int) returns (r: bool)
      requires Valid() && 0 <= h < |resources|
      ensures r == (Abs().R(h).ptrs != [])
    {
      Listings();
      hide Valid, Abs, ListTable.Valid;
      var empty := lists.entries.Empty(h);
      r := !empty;
    }

    method SetReader(h: int, p: int)
      requires Valid() && 0 <= h < |resources|
      modifies Repr
      ensures Valid() && store.live == old(store.live)
      ensures Abs() == old(Abs()).SetR(h, old(Abs()).R(h).(reader := p))
    {
      hide MS.Store.Valid, PoolAllocator.Valid, Shift, Lists.Valid, Lists.Shape;
      resources[h].reader := p;
      res := res[h := res[h].(reader := p)];
    }

    method SetWriter(h: int, p: int)
      requires Valid() && 0 <= h < |resources|
      modifies Repr
      ensures Valid() && store.live == old(store.live)
      ensures Abs() == old(Abs()).SetR(h, old(Abs()).R(h).(writer := p))
    {
      hide MS.Store.Valid, PoolAllocator.Valid, Shift, Lists.Valid, Lists.Shape;
      resources[h].writer := p;
      res := res[h := res[h].(writer := p)];
    }

    /** What Descriptor_alloc writes. */
    method FillDescriptor(d: int, fd: int, h: int, p: int, ghost mode: int)
      requires Valid() && 0 <= d < |descs|
      modifies Repr
      ensures Valid() && store.live == old(store.live)
      ensures Abs() == old(Abs()).SetD(d, old(Abs()).D(d).(fd := fd, res := h, proc := p, mode := mode))
    {
      hide MS.Store.Valid, PoolAllocator.Valid, Shift, Lists.Valid, Lists.Shape, PoolOk, ResourcesAre,
        HoldersAre, QueuesAre, ListsAre;
      descs[d].fd, descs[d].resource, descs[d].pcb, descs[d].mode := fd, h, p, mode;
      ds := ds[d := ds[d].(fd := fd, res := h, proc := p, mode := mode)];
    }

    method SetEntry(d: int, ptr: int)
      requires Valid() && 0 <= d < |descs|
      modifies Repr
      ensures Valid() && store.live == old(store.live)
      ensures Abs() == old(Abs()).SetD(d, old(Abs()).D(d).(ptr := ptr))
    {
      hide MS.Store.Valid, PoolAllocator.Valid, Shift, Lists.Valid, Lists.Shape;
      descs[d].ptr := ptr;
      ds := ds[d := ds[d].(ptr := ptr)];
    }

    /** What DescriptorPtr_alloc writes. */
    method SetOwner(ptr: int, d: int)
      requires Valid() && 0 <= ptr < |ptrs|
      modifies Repr
      ensures Valid() && store.live == old(store.live)
      ensures Abs() == old(Abs()).SetBack(ptr, d)
    {
      hide MS.Store.Valid, PoolAllocator.Valid, Shift, Lists.Valid, Lists.Shape;
      ptrs[ptr].descriptor := d;
      backs := backs[ptr := d];
    }

    method SetLastFd(p: int, fd: int)
      requires Valid() && 0 <= p < |holders|
      modifies Repr
      ensures Valid() && store.live == old(store.live)
      ensures Abs() == old(Abs()).SetH(p, old(Abs()).H(p).(lastFd := fd))
    {
      hide MS.Store.Valid, PoolAllocator.Valid, Shift, Lists.Valid, Lists.Shape;
      holders[p].lastFd := fd;
      hs := hs[p := hs[p].(lastFd := fd)];
    }

    lemma LooseDescriptor(d: int)
      requires Valid() && forall q :: d !in Abs().H(q).descs
      ensures !InSome(lists.held.lists, d)
    {
      hide *;
      Listings();
      forall p | 0 <= p < |lists.held.lists| ensures d !in lists.held.lists[p] {
        assert Abs().H(p).descs == lists.held.lists[p];
      }
      NotInSome(lists.held.lists, d);
    }

    method DescriptorIn(p: int, d: int)
      requires Valid() && 0 <= p < |holders| && 0 <= d < |descs| && !InSome(lists.held.lists, d)
      modifies lists.Repr
      ensures |res| == |resources| && |hs| == |holders| && Unrecorded(res, WithDescs(hs, p, hs[p].descs + [d]))
      ensures Abs() == old(Abs()) && store.live == old(store.live)
    {
      hide *;
      Components();
      Outside();
      Within();
      Listings();
      ListedIs();
      ghost var before := lists.held.lists;
      lists.AddHeld(p, d);
      OneHeldList(before, p, hs[p].descs + [d]);
      Compose(res, WithDescs(hs, p, hs[p].descs + [d]));
      ListedIs();
    }

    method DescriptorOut(p: int, d: int)
      requires Valid() && 0 <= p < |holders| && d in Abs().H(p).descs
      modifies lists.Repr
      ensures |res| == |resources| && |hs| == |holders| && Unrecorded(res, WithDescs(hs, p, Remove(hs[p].descs, d)))
      ensures Abs() == old(Abs()) && store.live == old(store.live)
    {
      hide *;
      Components();
      Outside();
      Within();
      Listings();
      ListedIs();
      ghost var before := lists.held.lists;
      lists.DropHeld(p, d);
      OneHeldList(before, p, Remove(hs[p].descs, d));
      Compose(res, WithDescs(hs, p, Remove(hs[p].descs, d)));
      ListedIs();
    }

    method NoDescriptors(p: int)
      requires Valid() && 0 <= p < |holders|
      modifies lists.Repr
      ensures |res| == |resources| && |hs| == |holders| && Unrecorded(res, WithDescs(hs, p, []))
      ensures Abs() == old(Abs()) && store.live == old(store.live)
    {
      hide *;
      Components();
      Outside();
      Within();
      Listings();
      ListedIs();
      ghost var before := lists.held.lists;
      lists.ClearHeld(p);
      OneHeldList(before, p, []);
      Compose(res, WithDescs(hs, p, []));
      ListedIs();
    }

    /** List_insert of a descriptor that no process holds. */
    method AppendDescriptor(p: int, d: int)
      requires Valid() && 0 <= p < |holders| && 0 <= d < |descs| && forall q :: d !in Abs().H(q).descs
      modifies Repr
      ensures Valid() && store.live == old(store.live)
      ensures Abs() == old(Abs()).SetH(p, old(Abs()).H(p).(descs := old(Abs()).H(p).descs + [d]))
    {
      hide *;
      Within();
      LooseDescriptor(d);
      ghost var s, q := Abs(), hs[p].descs + [d];
      DescsInState(s, p, q);
      DescriptorIn(p, d);
      RecordHeld(p, q);
    }

    /** List_detach of a descriptor from its process. */
    method RemoveDescriptor(p: int, d: int)
      requires Valid() && 0 <= p < |holders| && d in Abs().H(p).descs
      modifies Repr
      ensures Valid() && store.live == old(store.live)
      ensures Abs() == old(Abs()).SetH(p, old(Abs()).H(p).(descs := Remove(old(Abs()).H(p).descs, d)))
    {
      hide *;
      Within();
      ghost var s, q := Abs(), Remove(hs[p].descs, d);
      DescsInState(s, p, q);
      DescriptorOut(p, d);
      RecordHeld(p, q);
    }

    /** List_init of the descriptors of a process. */
    method ForgetDescriptors(p: int)
      requires Valid() && 0 <= p < |holders|
      modifies Repr
      ensures Valid() && store.live == old(store.live)
      ensures Abs() == old(Abs()).SetH(p, old(Abs()).H(p).(descs := []))
    {
      hide *;
      Within();
      ghost var s, q := Abs(), [];
      DescsInState(s, p, q);
      NoDescriptors(p);
      RecordHeld(p, q);
    }

    lemma LooseResource(h: int)
      requires Valid() && h !in Abs().listed
      ensures !InSome(lists.listed.lists, h)
    {
      hide *;
      Listings();
      NotInSome(lists.listed.lists, h);
    }

    /** List_insert of a resource that is not in the list. */
    method AppendListed(h: int)
      requires Valid() && 0 <= h < |resources| && h !in Abs().listed
      modifies Repr
      ensures Valid() && store.live == old(store.live)
      ensures Abs() == old(Abs()).(listed := old(Abs()).listed + [h])
    {
      LooseResource(h);
      Listings();
      hide MS.Store.Valid, PoolAllocator.Valid, Shift, Lists.Valid, Lists.Shape, PoolOk, DescriptorsAre,
        ResourcesAre, QueuesAre, Distinct, HoldersAre, InSome;
      lists.AddListed(h);
    }

    /** List_detach of a resource. */
    method RemoveListed(h: int)
      requires Valid() && h in Abs().listed
      modifies Repr
      ensures Valid() && store.live == old(store.live)
      ensures Abs() == old(Abs()).(listed := Remove(old(Abs()).listed, h))
    {
      Listings();
      hide MS.Store.Valid, PoolAllocator.Valid, Shift, Lists.Valid, Lists.Shape, PoolOk, DescriptorsAre,
        ResourcesAre, QueuesAre, Distinct, HoldersAre, Remove;
      lists.DropListed(h);
    }

    method AllocStandard() returns (b: int)
      requires Valid()
      modifies Repr
      ensures Valid() && store.live == old(store.live)
      ensures if old(Abs()).freeStd == [] then b == -1 && Abs() == old(Abs())
              else 0 <= b < standard && b == old(Abs()).freeStd[0]
                   && Abs() == old(Abs()).(freeStd := old(Abs()).freeStd[1..])
    {
      hide MS.Store.Valid, PoolAllocator.Valid, Shift, Lists.Valid, Lists.Shape;
      b := srPool.Alloc();
    }

    method AllocQueue() returns (b: int)
      requires Valid()
      modifies Repr
      ensures Valid() && store.live == old(store.live)
      ensures if old(Abs()).freeMq == [] then b == -1 && Abs() == old(Abs())
              else standard <= b < |resources| && b == old(Abs()).freeMq[0]
                   && Abs() == old(Abs()).(freeMq := old(Abs()).freeMq[1..])
    {
      hide MS.Store.Valid, PoolAllocator.Valid, Shift, Lists.Valid, Lists.Shape;
      ghost var free := mqPool.free;
      if free != [] { ShiftEnds(free, standard, free[0]); }
      b := mqPool.Alloc();
      if b != -1 {
        b := b + standard;
      }
    }

    method AllocDescriptor() returns (b: int)
      requires Valid()
      modifies Repr
      ensures Valid() && store.live == old(store.live)
      ensures if old(Abs()).freeDescs == [] then b == -1 && Abs() == old(Abs())
              else b == old(Abs()).freeDescs[0] && Abs() == old(Abs()).(freeDescs := old(Abs()).freeDescs[1..])
    {
      hide MS.Store.Valid, PoolAllocator.Valid, Shift, Lists.Valid, Lists.Shape;
      b := descPool.Alloc();
    }

    method AllocPointer() returns (b: int)
      requires Valid()
      modifies Repr
      ensures Valid() && store.live == old(store.live)
      ensures if old(Abs()).freePtrs == [] then b == -1 && Abs() == old(Abs())
              else b == old(Abs()).freePtrs[0] && Abs() == old(Abs()).(freePtrs := old(Abs()).freePtrs[1..])
    {
      hide MS.Store.Valid, PoolAllocator.Valid, Shift, Lists.Valid, Lists.Shape;
      b := ptrPool.Alloc();
    }

    method FreeStandard(b: int) returns (r: PoolResult)
      requires Valid() && 0 <= b < standard && b !in Abs().freeStd
      modifies Repr
      ensures Valid() && store.live == old(store.live) && r == Success
      ensures Abs() == old(Abs()).(freeStd := [b] + old(Abs()).freeStd)
    {
      hide MS.Store.Valid, PoolAllocator.Valid, Shift, Lists.Valid, Lists.Shape;
      r := srPool.Free(b);
    }

    method FreeQueueBlock(b: int) returns (r: PoolResult)
      requires Valid() && standard <= b < |resources| && b !in Abs().freeMq
      modifies Repr
      ensures Valid() && store.live == old(store.live) && r == Success
      ensures Abs() == old(Abs()).(freeMq := [b] + old(Abs()).freeMq)
    {
      hide MS.Store.Valid, PoolAllocator.Valid, Shift, Lists.Valid, Lists.Shape;
      ShiftEnds(mqPool.free, standard, b - standard);
      ShiftMember(mqPool.free, standard, b - standard);
      r := mqPool.Free(b - standard);
    }

    method FreeDescriptor(b: int) returns (r: PoolResult)
      requires Valid() && 0 <= b < |descs| && b !in Abs().freeDescs
      modifies Repr
      ensures Valid() && store.live == old(store.live) && r == Success
      ensures Abs() == old(Abs()).(freeDescs := [b] + old(Abs()).freeDescs)
    {
      hide MS.Store.Valid, PoolAllocator.Valid, Shift, Lists.Valid, Lists.Shape;
      r := descPool.Free(b);
    }

    method FreePointer(b: int) returns (r: PoolResult)
      requires Valid() && 0 <= b < |ptrs| && b !in Abs().freePtrs
      modifies Repr
      ensures Valid() && store.live == old(store.live) && r == Success
      ensures Abs() == old(Abs()).(freePtrs := [b] + old(Abs()).freePtrs)
    {
      hide MS.Store.Valid, PoolAllocator.Valid, Shift, Lists.Valid, Lists.Shape;
      r := ptrPool.Free(b);
    }

    // ---------- message store ----------

    /** The part of the state that has nothing to do with messages. */
    ghost function Rest(): State
      reads this, srPool, mqPool, descPool, ptrPool, lists.listed
    {
      State([], ListedNow(), srPool.free, Shift(mqPool.free, standard), ds, backs, descPool.free, ptrPool.free,
            hs, [], [], lost)
    }

    lemma AbsIs()
      ensures Abs() == Rest().(res := res, msgs := store.records, freeMsgs := store.pool.free)
    {
    }

    /** List_init in mq_alloc. */
    method InitMessages(h: int)
      requires Valid() && 0 <= h < |resources| && h !in store.live
      modifies Repr
      ensures Valid() && store.live == old(store.live) + {h} && Abs() == old(Abs())
    {
      StoreInRepr();
      hide MS.Store.Valid, PoolAllocator.Valid, Shift, Lists.Valid, Lists.Shape;
      store.Create(h);
    }

    /** m_alloc of a message that is not too long; the caller follows a null pointer when the pool is empty. */
    method AllocMessage(buffer: seq<char>, length: int) returns (b: int)
      requires Valid() && 0 <= length <= MESSAGE_STRING_MAX_LENGTH && length <= |buffer| && Abs().freeMsgs != []
      modifies Repr
      ensures Valid() && store.live == old(store.live) && store.queues == old(store.queues)
      ensures b == old(Abs()).freeMsgs[0] && 0 <= b < |store.blocks| && b !in store.pool.free && !store.Queued(b)
      ensures Abs() == old(Abs()).SetM(b, old(Abs()).M(b).(text := buffer[..length]))
                         .(freeMsgs := old(Abs()).freeMsgs[1..])
    {
      hide MS.Store.Valid, MS.Store.Queued, OwnOk, Distinct, Shift, Shape, Lists.Shape, Lists.Valid;
      StoreInRepr();
      Separate();
      b := store.MAlloc(buffer, length);
    }

    lemma StoreInRepr()
      requires Valid()
      ensures store in Repr && store.pool in Repr && store.links in Repr
      ensures forall m :: m in store.blocks ==> m in store.Repr && m.msg in store.Repr && m.list in store.Repr
      ensures forall h :: 0 <= h < |store.heads| ==> store.heads[h] in store.Repr
      ensures |store.heads| == |resources| == |store.queues| && forall h :: h in store.live ==> 0 <= h < |resources|
      ensures |store.records| == |store.blocks|
    {
      hide PoolAllocator.Valid;
      assert store.Shape();
      assert forall h :: 0 <= h < |store.heads| ==> store.heads[h] in store.heads;
    }

    /** The store has changed and the records not yet. */
    ghost predicate Behind(rs: seq<Resource>)
      reads this, Repr
    {
      Shape() && store.Valid() && OwnOk() && QueuesAre(rs)
    }

    /** Only messages change in the records. */
    ghost method Record(h: int, q: seq<int>)
      requires 0 <= h < |res| && Behind(WithMessages(res, h, q))
      modifies this`res
      ensures Valid() && res == WithMessages(old(res), h, q) && Rest() == old(Rest())
    {
      hide MS.Store.Valid, PoolOk, DescriptorsAre, HoldersAre, Distinct;
      res := res[h := res[h].(msgs := q)];
    }

    /** One queue changes in the store and in the records. */
    lemma OneQueue(rs: seq<Resource>, before: seq<seq<int>>, h: int, q: seq<int>)
      requires |rs| == |before| && 0 <= h < |rs| && forall k :: 0 <= k < |rs| ==> rs[k].msgs == before[k]
      requires store.queues == before[h := q]
      ensures QueuesAre(WithMessages(rs, h, q))
    {
    }

    lemma Separate()
      requires Valid()
      ensures store.Repr <= Repr && OwnRepr !! store.Repr && this !in store.Repr && this in Repr && store in store.Repr
      ensures {srPool, mqPool, descPool, ptrPool, lists.listed} <= OwnRepr
      ensures {store, store.pool, store.links} <= store.Repr
    {
    }

    method AppendStore(h: int, b: int) returns (accepted: bool)
      requires Valid() && h in store.live && 0 <= b < |store.blocks| && b !in store.pool.free && !store.Queued(b)
      requires 0 <= h < |res|
      modifies store.Repr
      ensures store.live == old(store.live) && accepted == !old(store.records)[b].stale && Rest() == old(Rest())
      ensures Behind(WithMessages(res, h, Outcome(res[h].msgs, b, accepted)))
      ensures store.records == old(store.records) && store.pool.free == old(store.pool.free)
    {
      Separate();
      hide MS.Store.Valid, MS.Store.Queued, OwnOk, Shape;
      ghost var before := store.queues;
      accepted := store.Enqueue(h, b);
      OneQueue(res, before, h, Outcome(res[h].msgs, b, accepted));
    }

    method AppendRaw(h: int, b: int) returns (accepted: bool)
      requires Valid() && h in store.live && 0 <= b < |store.blocks| && b !in store.pool.free && !store.Queued(b)
      requires 0 <= h < |res|
      modifies Repr
      ensures Valid() && store.live == old(store.live) && accepted == !old(store.records)[b].stale
      ensures res == WithMessages(old(res), h, Outcome(old(res)[h].msgs, b, accepted))
      ensures Rest() == old(Rest())
      ensures store.records == old(store.records) && store.pool.free == old(store.pool.free)
    {
      Separate();
      hide *;
      accepted := AppendStore(h, b);
      Record(h, Outcome(res[h].msgs, b, accepted));
    }

    /** List_insert of a message; when it is refused the block is lost. */
    method AppendMessage(h: int, b: int)
      requires Valid() && h in store.live && 0 <= b < |store.blocks| && b !in store.pool.free && !store.Queued(b)
      modifies Repr
      ensures Valid() && store.live == old(store.live)
      ensures Abs() == if old(Abs()).M(b).stale then old(Abs()).(lost := [b] + old(Abs()).lost)
                       else old(Abs()).SetR(h, old(Abs()).R(h).(msgs := old(Abs()).R(h).msgs + [b]))
    {
      StoreInRepr();
      ResourcesInRange();
      hide Valid, MS.Store.Queued, Abs, Rest, WithMessages;
      ghost var s := Abs();
      AbsIs();
      QueueInState(s, h, s.res[h].msgs + [b]);
      var accepted := AppendRaw(h, b);
      if !accepted {
        NoteLost(b);
      }
      AbsIs();
    }

    ghost method NoteLost(b: int)
      requires Valid()
      modifies this`lost
      ensures Valid() && Rest() == old(Rest()).(lost := [b] + old(Rest()).lost) && res == old(res)
    {
      hide MS.Store.Valid, PoolOk, DescriptorsAre, HoldersAre, ResourcesAre, Distinct, Shift;
      lost := [b] + lost;
    }

    lemma ResourcesInRange()
      requires Valid()
      ensures |res| == |resources| && this in Repr && |store.records| == |store.blocks|
    {
    }

    method TakeStore(h: int) returns (b: int)
      requires Valid() && h in store.live && 0 <= h < |res| && res[h].msgs != []
      modifies store.Repr
      ensures store.live == old(store.live) && Rest() == old(Rest())
      ensures b == res[h].msgs[0] && 0 <= b < |store.blocks| && b !in store.pool.free && !store.Queued(b)
      ensures Behind(WithMessages(res, h, Tail(res[h].msgs)))
      ensures store.records == old(store.records) && store.pool.free == old(store.pool.free)
    {
      Separate();
      hide MS.Store.Valid, MS.Store.Queued, OwnOk, Shape;
      ghost var before := store.queues;
      b := store.Dequeue(h);
      OneQueue(res, before, h, Tail(res[h].msgs));
    }

    method TakeRaw(h: int) returns (b: int)
      requires Valid() && h in store.live && 0 <= h < |res| && res[h].msgs != []
      modifies Repr
      ensures Valid() && store.live == old(store.live)
      ensures b == old(res)[h].msgs[0] && 0 <= b < |store.blocks| && b !in store.pool.free && !store.Queued(b)
      ensures res == WithMessages(old(res), h, Tail(old(res)[h].msgs))
      ensures Rest() == old(Rest())
      ensures store.records == old(store.records) && store.pool.free == old(store.pool.free)
    {
      Separate();
      hide *;
      b := TakeStore(h);
      Record(h, Tail(res[h].msgs));
    }

    /** List_detach of the first message. */
    method TakeMessage(h: int) returns (b: int)
      requires Valid() && h in store.live && Abs().R(h).msgs != []
      modifies Repr
      ensures Valid() && store.live == old(store.live)
      ensures b == old(Abs()).R(h).msgs[0] && 0 <= b < |store.blocks| && b !in store.pool.free && !store.Queued(b)
      ensures Abs() == old(Abs()).SetR(h, old(Abs()).R(h).(msgs := old(Abs()).R(h).msgs[1..]))
    {
      StoreInRepr();
      ResourcesInRange();
      hide Valid, MS.Store.Queued, Abs, Rest, WithMessages;
      AbsIs();
      QueueInState(Abs(), h, Tail(res[h].msgs));
      b := TakeRaw(h);
      AbsIs();
    }

    /** m_free. */
    method FreeMessage(b: int) returns (r: PoolResult)
      requires Valid() && 0 <= b < |store.blocks| && b !in store.pool.free && !store.Queued(b)
      modifies Repr
      ensures Valid() && store.live == old(store.live) && r == Success
      ensures Abs() == old(Abs()).(freeMsgs := [b] + old(Abs()).freeMsgs)
    {
      StoreInRepr();
      hide MS.Store.Valid, MS.Store.Queued, OwnOk, Distinct, Shift;
      r := store.MFree(b);
    }

    method FreeStore(h: int)
      requires Valid() && h in store.live && 0 <= h < |res|
      modifies store.Repr
      ensures store.live == old(store.live) - {h} && Rest() == old(Rest())
      ensures Behind(WithMessages(res, h, []))
      ensures store.pool.free == MS.ReleasedAll(old(store.pool.free), res[h].msgs)
      ensures store.records == MS.Marked(old(store.records), res[h].msgs, |res[h].msgs| >= 2)
    {
      Separate();
      hide MS.Store.Valid, MS.Store.Queued, OwnOk, Shape;
      ghost var before := store.queues;
      store.Clear(h);
      OneQueue(res, before, h, []);
    }

    method FreeRaw(h: int)
      requires Valid() && h in store.live && 0 <= h < |res|
      modifies Repr
      ensures Valid() && store.live == old(store.live) - {h}
      ensures res == WithMessages(old(res), h, [])
      ensures Rest() == old(Rest())
      ensures store.pool.free == MS.ReleasedAll(old(store.pool.free), old(res)[h].msgs)
      ensures store.records == MS.Marked(old(store.records), old(res)[h].msgs, |old(res)[h].msgs| >= 2)
    {
      Separate();
      hide *;
      FreeStore(h);
      Record(h, []);
    }

    /** The loop of mq_free. */
    method FreeMessages(h: int)
      requires Valid() && h in store.live
      modifies Repr
      ensures Valid() && store.live == old(store.live) - {h}
      ensures Abs() == AllFreed(old(Abs()), h)
    {
      StoreInRepr();
      ResourcesInRange();
      hide Valid, Abs, Rest, WithMessages;
      AbsIs();
      QueueInState(Abs(), h, []);
      FreeRaw(h);
      AbsIs();
    }

    // ---------- lookups ----------

    lemma ListedIds()
      requires Valid() && HandlesOk(Abs())
      ensures forall i :: 0 <= i < |Abs().listed| ==>
                var k := Abs().listed[i]; 0 <= k < |resources| && resources[k].id == Abs().R(k).id
    {
      hide MS.Store.Valid, PoolAllocator.Valid, Shift, Lists.Valid, Lists.Shape, ListTable.Valid;
      forall i | 0 <= i < |Abs().listed|
        ensures var k := Abs().listed[i]; 0 <= k < |resources| && resources[k].id == Abs().R(k).id
      {
        assert Abs().listed[i] in Abs().listed;
      }
    }

    lemma HeldFds(p: int)
      requires Valid() && DescInv(Abs()) && 0 <= p < |holders|
      ensures forall i :: 0 <= i < |Abs().H(p).descs| ==>
                var d := Abs().H(p).descs[i]; 0 <= d < |descs| && descs[d].fd == Abs().D(d).fd
    {
      hide MS.Store.Valid, PoolAllocator.Valid, Shift, Lists.Valid, Lists.Shape, ListTable.Valid;
      forall i | 0 <= i < |Abs().H(p).descs|
        ensures var d := Abs().H(p).descs[i]; 0 <= d < |descs| && descs[d].fd == Abs().D(d).fd
      {
        var d := Abs().H(p).descs[i];
        assert d in Abs().H(p).descs;
        assert Held(Abs(), p, d);
      }
    }

    /** ResourceList_byId. */
    method ResourceListById(id: int) returns (h: int)
      requires Valid() && HandlesOk(Abs())
      ensures h == ById(Abs(), Abs().listed, id)
      ensures h != NULL ==> 0 <= h < |resources|
    {
      hide *;
      Listings();
      ListedIds();
      ghost var s, all := Abs(), Abs().listed;
      assert all[0..] == all;
      h := lists.listed.First(0);
      ghost var i := 0;
      while h != -1
        invariant 0 <= i <= |all| && h == if i == |all| then -1 else all[i]
        invariant ById(s, all[i..], id) == ById(s, all, id)
        decreases |all| - i
      {
        assert all[i..][1..] == all[i + 1..] && all[i..][0] == all[i];
        ByIdStep(s, all[i..], id);
        if resources[h].id == id {
          return h;
        }
        h := lists.listed.Next(h, 0, i);
        i := i + 1;
      }
      ByIdEnd(s, all[i..], id);
      h := NULL;
    }

    /** DescriptorList_byFd. */
    method DescriptorListByFd(p: int, fd: int) returns (d: int)
      requires Valid() && DescInv(Abs()) && 0 <= p < |holders|
      ensures d == ByFd(Abs(), Abs().H(p).descs, fd)
      ensures d != NULL ==> 0 <= d < |descs|
    {
      hide *;
      Listings();
      HeldFds(p);
      ghost var s, all := Abs(), Abs().H(p).descs;
      assert all[0..] == all;
      d := lists.held.First(p);
      ghost var i := 0;
      while d != -1
        invariant 0 <= i <= |all| && d == if i == |all| then -1 else all[i]
        invariant ByFd(s, all[i..], fd) == ByFd(s, all, fd)
        decreases |all| - i
      {
        assert all[i..][1..] == all[i + 1..] && all[i..][0] == all[i];
        ByFdStep(s, all[i..], fd);
        if descs[d].fd == fd {
          return d;
        }
        d := lists.held.Next(d, p, i);
        i := i + 1;
      }
      ByFdEnd(s, all[i..], fd);
      d := NULL;
    }

    // ---------- the fields of a block ----------

    lemma ResourceAt(h: int)
      requires Valid() && 0 <= h < |resources|
      ensures ResourceIs(resources[h], Abs().R(h)) && |Abs().res| == |resources|
    {
    }

    lemma HolderAt(p: int)
      requires Valid() && 0 <= p < |holders|
      ensures HolderIs(holders[p], Abs().H(p)) && |Abs().holders| == |holders| == |regs|
    {
    }

    lemma DescriptorAt(d: int)
      requires Valid() && 0 <= d < |descs|
      ensures DescriptorIs(descs[d], Abs().D(d)) && |Abs().descs| == |descs| == |ptrs| == |Abs().backs|
    {
    }

    lemma StateSizes()
      requires Valid()
      ensures |Abs().res| == |resources| && |Abs().descs| == |descs| == |ptrs| == |Abs().backs|
      ensures |Abs().holders| == |holders|
    {
      hide Distinct, MS.Store.Valid, PoolAllocator.Valid, Shift, Lists.Valid, Lists.Shape;
    }

    // ---------- open ----------

    lemma Kinds()
      ensures STANDARD_RESOURCE_TYPE == 0 && MESSAGE_QUEUE_TYPE == 1
      ensures forall s: State :: FreeOf(s, MESSAGE_QUEUE_TYPE) == s.freeMq
      ensures forall s: State :: FreeOf(s, STANDARD_RESOURCE_TYPE) == s.freeStd
    {
    }

    /** Resource_alloc of a known type, followed by List_insert into the resource list. */
    method CreateResource(id: int, kind: int) returns (h: int)
      requires Valid() && Inv(Abs()) && store.live == LiveIn(Abs()) && KindsOk(Abs(), standard)
      requires 0 <= kind <= MESSAGE_QUEUE_TYPE && FreeOf(Abs(), kind) != []
      modifies Repr
      ensures Valid() && store.live == LiveIn(Abs()) && h == FreeOf(old(Abs()), kind)[0] && KindsOk(Abs(), standard)
      ensures Abs() == NewResource(old(Abs()), id, kind) && 0 <= h < |resources|
    {
      hide *;
      ghost var s := Abs();
      NewHandle(s, kind);
      Within();
      Kinds();
      NewResourceForm(s, id, kind);
      if kind == STANDARD_RESOURCE_TYPE {
        h := AllocStandard();
      } else {
        h := AllocQueue();
        InitMessages(h);
      }
      NewResourceKinds(s, id, kind, standard);
      HeadedForm(Abs(), h, id, kind);
      SetHeader(h, id, kind);
      ResetEntries(h);
      AppendListed(h);
    }

    /** mq_set_mode. */
    method SetMode(h: int, mode: int, p: int) returns (result: int)
      requires Valid() && 0 <= h < |resources| && p != NULL && Abs().R(h).kind == MESSAGE_QUEUE_TYPE
      modifies Repr
      ensures Valid() && store.live == old(store.live)
      ensures if SlotTaken(old(Abs()).R(h), mode) then result == 0 && Abs() == old(Abs())
              else result == 1 && Abs() == TakeSlot(old(Abs()), h, mode, p)
    {
      ResourceAt(h);
      hide Valid, Shift;
      SetItself(Abs(), h);
      if resources[h].kind != MESSAGE_QUEUE_TYPE {
        return 0;
      }
      if mode == DSOS_READ {
        if resources[h].reader != NULL {
          return 0;
        }
        SetReader(h, p);
      } else if mode == DSOS_WRITE {
        if resources[h].writer != NULL {
          return 0;
        }
        SetWriter(h, p);
      }
      result := 1;
    }

    /** Descriptor_alloc. */
    method NewDescriptor(fd: int, h: int, p: int, ghost mode: int) returns (d: int)
      requires Valid() && DescInv(Abs())
      modifies Repr
      ensures Valid() && store.live == old(store.live)
      ensures if old(Abs()).freeDescs == [] then d == NULL && Abs() == old(Abs())
              else
                && d == old(Abs()).freeDescs[0] && 0 <= d < |descs|
                && Abs() == old(Abs()).(freeDescs := old(Abs()).freeDescs[1..])
                              .SetD(d, old(Abs()).D(d).(fd := fd, res := h, proc := p, mode := mode))
    {
      FirstDescriptor();
      hide Valid, DescInv, Shift;
      d := AllocDescriptor();
      if d != -1 {
        FillDescriptor(d, fd, h, p, mode);
      }
    }

    lemma FirstDescriptor()
      requires Valid() && DescInv(Abs())
      ensures Abs().freeDescs == Abs().freePtrs
      ensures Abs().freeDescs != [] ==> 0 <= Abs().freeDescs[0] < |descs| && |descs| == |ptrs|
    {
      assert Abs().freeDescs != [] ==> Abs().freeDescs[0] in Abs().freeDescs;
    }

    /** last_fd moves on, and the descriptor, with a pointer block of its own, enters its process. */
    method EnterProcess(p: int, d: int) returns (ptr: int)
      requires Valid() && 0 <= p < |holders| && Abs().freePtrs != [] && 0 <= Abs().freePtrs[0] < |ptrs|
      requires 0 <= d < |descs| && forall q :: d !in Abs().H(q).descs
      modifies Repr
      ensures Valid() && store.live == old(store.live) && ptr == old(Abs()).freePtrs[0]
      ensures Abs() == InProcess(old(Abs()), p, d)
    {
      hide *;
      ghost var s := Abs();
      InProcessForm(s, p, d);
      HolderFields(p);
      SetLastFd(p, holders[p].lastFd + 1);
      ptr := AllocPointer();
      SetOwner(ptr, d);
      HolderFields(p);
      AppendDescriptor(p, d);
    }

    lemma HolderFields(p: int)
      requires Valid() && 0 <= p < |holders|
      ensures holders[p].lastFd == Abs().H(p).lastFd
      ensures 0 <= p < |Abs().holders|
    {
    }

    /** The pointer block enters the resource. */
    method EnterResource(d: int, ptr: int, h: int)
      requires Valid() && 0 <= d < |descs| && 0 <= h < |resources|
      requires 0 <= ptr < |ptrs| && forall k :: ptr !in Abs().R(k).ptrs
      modifies Repr
      ensures Valid() && store.live == old(store.live)
      ensures Abs() == InResource(old(Abs()), d, ptr, h)
    {
      hide Valid, Shift;
      ghost var s := Abs();
      SetDSpares(s, d, s.D(d).(ptr := ptr));
      SetEntry(d, ptr);
      AppendEntry(h, ptr);
    }

    /** The end of internal_openResource. */
    method Connect(p: int, h: int, ghost mode: int) returns (r: int)
      requires Valid() && DescInv(Abs()) && 0 <= p < |holders| && 0 <= h < |resources|
      modifies Repr
      ensures Valid() && store.live == old(store.live)
      ensures old(Abs()).freeDescs != [] ==> old(Abs()).freePtrs != []
      ensures Abs() == Finish(old(Abs()), p, h, mode).s && Value(r) == Finish(old(Abs()), p, h, mode).ret
    {
      hide *;
      ghost var s := Abs();
      FirstDescriptor();
      HolderFields(p);
      FinishForm(s, p, h, mode);
      StateSizes();
      var fd := holders[p].lastFd;
      var d := NewDescriptor(fd, h, p, mode);
      if d == -1 {
        return DSOS_ERESOURCENOFD;
      }
      ghost var t := Abs();
      FirstIsLoose(s);
      FilledSpares(s, s.freeDescs[1..], d, s.D(d).(fd := fd, res := h, proc := p, mode := mode));
      InProcessSpares(t, p, d);
      var ptr := EnterProcess(p, d);
      EnterResource(d, ptr, h);
      LinkForm(s, p, h, mode, t);
      r := fd;
    }

    /** The invariants between calls. */
    ghost predicate Ready()
      reads this, Repr
    {
      Valid() && Inv(Abs()) && store.live == LiveIn(Abs()) && KindsOk(Abs(), standard)
    }

    /** internal_openResource. */
    method InternalOpenResource(p: int, id: int, kind: int, mode: int)
      requires 0 <= p < |regs| && Ready() && CanStep(Abs(), OpenOp(p, id, kind, mode))
      modifies Repr, regs[p]
      ensures Ready() && Abs() == Open(old(Abs()), p, id, kind, mode).s
      ensures Value(regs[p].syscallRetvalue) == Open(old(Abs()), p, id, kind, mode).ret
      ensures regs[p].returnValue == old(regs[p].returnValue)
    {
      RegistersApart();
      hide *;
      var r := OpenResource(p, id, kind, mode);
      SetResult(p, r);
    }

    lemma RegistersApart()
      requires Ready()
      ensures forall i :: 0 <= i < |regs| ==> regs[i] !in Repr
      ensures |regs| == |holders|
      ensures this in Repr && store in Repr && store.pool in Repr && {srPool, mqPool, descPool, ptrPool} <= Repr
    {
    }

    method SetResult(p: int, r: int)
      requires 0 <= p < |regs| && Ready()
      modifies regs[p]
      ensures regs[p].syscallRetvalue == r && regs[p].returnValue == old(regs[p].returnValue)
      ensures Ready() && Abs() == old(Abs())
    {
      RegistersApart();
      hide Ready, Shift;
      regs[p].syscallRetvalue := r;
    }

    /** Whether an open takes a slot of a message queue. */
    method WillTake(ghost p: int, id: int, kind: int, mode: int) returns (takes: bool)
      requires Ready()
      ensures takes == TakesSlot(Abs(), OpenOp(p, id, kind, mode))
    {
      hide *;
      ReadyParts();
      TakesForm(Abs(), p, id, kind, mode);
      var h := ResourceListById(id);
      if h == NULL || (mode != DSOS_READ && mode != DSOS_WRITE) {
        return false;
      }
      ResourceAt(h);
      Header(resources[h], Abs().R(h));
      takes := resources[h].kind == kind && kind == MESSAGE_QUEUE_TYPE
               && (if mode == DSOS_READ then resources[h].reader == NULL else resources[h].writer == NULL);
    }

    method OpenResource(p: int, id: int, kind: int, mode: int) returns (r: int)
      requires 0 <= p < |regs| && Ready() && CanStep(Abs(), OpenOp(p, id, kind, mode))
      modifies Repr
      ensures Ready() && Abs() == Open(old(Abs()), p, id, kind, mode).s
      ensures Value(r) == Open(old(Abs()), p, id, kind, mode).ret
    {
      hide *;
      ghost var s := Abs();
      OpenAllowed(s, p, id, kind, mode);
      ReadyParts();
      RegistersApart();
      HolderInState(p);
      OpenKeeps(s, p, id, kind, mode);
      OpenForm(s, p, id, kind, mode);
      var h := ResourceListById(id);
      if mode == DSOS_CREATE {
        if h != NULL {
          return DSOS_ERESOURCECREATE;
        }
        r := OpenNew(p, id, kind);
      } else {
        r := OpenExisting(p, h, kind, mode);
      }
      Restore();
    }

    method OpenNew(p: int, id: int, kind: int) returns (r: int)
      requires Valid() && Inv(Abs()) && store.live == LiveIn(Abs()) && KindsOk(Abs(), standard)
      requires 0 <= p < |holders| && 0 <= kind <= MESSAGE_QUEUE_TYPE && FreeOf(Abs(), kind) != []
      requires ById(Abs(), Abs().listed, id) == NULL
      modifies Repr
      ensures Valid() && store.live == LiveIn(Abs()) && KindsOk(Abs(), standard)
      ensures var s := NewResource(old(Abs()), id, kind);
              && (s.freeDescs != [] ==> s.freePtrs != [])
              && Abs() == Finish(s, p, FreeOf(old(Abs()), kind)[0], DSOS_CREATE).s
              && Value(r) == Finish(s, p, FreeOf(old(Abs()), kind)[0], DSOS_CREATE).ret
    {
      hide *;
      NewResourceKeeps(Abs(), id, kind);
      var h := CreateResource(id, kind);
      InvParts(Abs());
      r := ConnectKinds(p, h, DSOS_CREATE);
    }

    /** The rest of internal_openResource once the resource has been looked up. */
    method OpenExisting(p: int, h: int, kind: int, mode: int) returns (r: int)
      requires Valid() && Inv(Abs()) && store.live == LiveIn(Abs()) && KindsOk(Abs(), standard)
      requires 0 <= p < |holders| && (h == NULL || h in Abs().listed)
      modifies Repr
      ensures Valid() && store.live == LiveIn(Abs()) && KindsOk(Abs(), standard)
      ensures old(Abs()).freeDescs != [] ==> old(Abs()).freePtrs != []
      ensures Abs() == Reopen(old(Abs()), p, h, kind, mode).s && Value(r) == Reopen(old(Abs()), p, h, kind, mode).ret
    {
      hide *;
      ghost var s := Abs();
      InvParts(s);
      FirstDescriptor();
      if h == NULL {
        ReopenNone(s, p, kind, mode);
        return DSOS_ERESOURCEOPEN;
      }
      ListedInRange(s, h);
      StateSizes();
      Entries(h);
      KnownKind(s, h);
      ReopenForm(s, p, h, kind, mode);
      if resources[h].kind != kind {
        return DSOS_ERESOURCEOPEN;
      }
      if mode == DSOS_EXCL {
        var open := HasEntries(h);
        if open {
          return DSOS_ERESOURCENOEXCL;
        }
      }
      if resources[h].kind > STANDARD_RESOURCE_TYPE {
        var result := TakeMode(p, h, mode);
        if result == 0 {
          return DSOS_ERESOURCEOPEN;
        }
      }
      r := ConnectKinds(p, h, mode);
    }

    method TakeMode(p: int, h: int, mode: int) returns (result: int)
      requires Valid() && Inv(Abs()) && store.live == LiveIn(Abs()) && KindsOk(Abs(), standard)
      requires 0 <= h < |resources| && p != NULL && Abs().R(h).kind == MESSAGE_QUEUE_TYPE
      modifies Repr
      ensures Valid() && DescInv(Abs()) && store.live == LiveIn(Abs()) && KindsOk(Abs(), standard)
      ensures if SlotTaken(old(Abs()).R(h), mode) then result == 0 && Abs() == old(Abs())
              else result == 1 && Abs() == TakeSlot(old(Abs()), h, mode, p)
    {
      hide *;
      ghost var s := Abs();
      InvParts(s);
      TakenKeeps(s, h, mode, p);
      TakenKinds(s, h, mode, p);
      result := SetMode(h, mode, p);
      SameKindsKeep(s, TakeSlot(s, h, mode, p), standard);
    }

    method ConnectKinds(p: int, h: int, ghost mode: int) returns (r: int)
      requires Valid() && DescInv(Abs()) && 0 <= p < |holders| && 0 <= h < |resources|
      requires store.live == LiveIn(Abs()) && KindsOk(Abs(), standard)
      modifies Repr
      ensures Valid() && store.live == LiveIn(Abs()) && KindsOk(Abs(), standard)
      ensures old(Abs()).freeDescs != [] ==> old(Abs()).freePtrs != []
      ensures Abs() == Finish(old(Abs()), p, h, mode).s && Value(r) == Finish(old(Abs()), p, h, mode).ret
    {
      hide *;
      ghost var s := Abs();
      r := Connect(p, h, mode);
      FinishKinds(s, p, h, mode);
      SameKindsKeep(s, Abs(), standard);
    }

    lemma ReadyParts()
      requires Ready()
      ensures Valid() && Inv(Abs()) && HandlesOk(Abs()) && DescInv(Abs())
      ensures store.live == LiveIn(Abs()) && KindsOk(Abs(), standard)
    {
    }

    // ---------- close and exit ----------

    /** List_detach from the descriptor list of a process. */
    method LeaveProcess(p: int, d: int)
      requires Valid() && 0 <= p < |holders| && d in Abs().H(p).descs
      modifies Repr
      ensures Valid() && store.live == old(store.live)
      ensures Abs() == OutOfProcess(old(Abs()), p, d)
    {
      hide Valid, Shift, Remove;
      RemoveDescriptor(p, d);
    }

    /** mq_delete_mode. */
    method ClearMode(h: int, mode: int) returns (result: int)
      requires Valid() && 0 <= h < |resources|
      modifies Repr
      ensures Valid() && store.live == old(store.live)
      ensures if old(Abs()).R(h).kind != MESSAGE_QUEUE_TYPE then result == 0 && Abs() == old(Abs())
              else result == 1 && Abs() == old(Abs()).SetR(h, ClearSlot(old(Abs()).R(h), mode))
    {
      ResourceAt(h);
      hide Valid, Shift;
      SetItself(Abs(), h);
      if resources[h].kind != MESSAGE_QUEUE_TYPE {
        return 0;
      }
      if mode == DSOS_READ {
        SetReader(h, NULL);
      } else if mode == DSOS_WRITE {
        SetWriter(h, NULL);
      }
      result := 1;
    }

    /** List_detach from the entries of a resource; both blocks are freed. */
    method LeaveResource(d: int, h: int, ptr: int)
      requires Valid() && 0 <= h < |resources| && 0 <= d < |descs| && 0 <= ptr < |ptrs|
      requires d !in Abs().freeDescs && ptr !in Abs().freePtrs && ptr in Abs().R(h).ptrs
      modifies Repr
      ensures Valid() && store.live == old(store.live)
      ensures Abs() == OutOfResource(old(Abs()), d, h, ptr)
    {
      hide Valid, Shift, Remove;
      RemoveEntry(h, ptr);
      var r := FreeDescriptor(d);
      r := FreePointer(ptr);
    }

    /** Descriptor d belongs to process p: where it leads. */
    lemma Leads(p: int, d: int)
      requires Valid() && Inv(Abs()) && 0 <= p < |holders| && d in Abs().H(p).descs
      ensures 0 <= d < |descs| && 0 <= descs[d].resource < |resources| && descs[d].ptr == d < |ptrs|
      ensures d !in Abs().freeDescs && d !in Abs().freePtrs && DescriptorIs(descs[d], Abs().D(d))
      ensures descs[d].resource in Abs().listed && Abs().D(d).ptr == d && Abs().D(d).res == descs[d].resource
      ensures d in Abs().R(descs[d].resource).ptrs
    {
      assert Held(Abs(), p, d);
      DescriptorAt(d);
      ListedInRange(Abs(), Abs().D(d).res);
    }

    /** internal_closeResource. */
    method InternalCloseResource(p: int, fd: int, mode: int)
      requires 0 <= p < |regs| && Ready()
      modifies Repr, regs[p]
      ensures Ready() && Abs() == Close(old(Abs()), p, fd, mode).s
      ensures Value(regs[p].syscallRetvalue) == Close(old(Abs()), p, fd, mode).ret
      ensures regs[p].returnValue == old(regs[p].returnValue)
    {
      RegistersApart();
      hide *;
      var r := CloseResource(p, fd, mode);
      SetResult(p, r);
    }

    method CloseResource(p: int, fd: int, mode: int) returns (r: int)
      requires 0 <= p < |regs| && Ready()
      modifies Repr
      ensures Ready() && Abs() == Close(old(Abs()), p, fd, mode).s
      ensures Value(r) == Close(old(Abs()), p, fd, mode).ret
    {
      hide *;
      ghost var s := Abs();
      ReadyParts();
      RegistersApart();
      HolderAt(p);
      CloseIs(s, p, fd, mode);
      var d := DescriptorListByFd(p, fd);
      if d == NULL {
        return DSOS_ERESOURCECLOSE;
      }
      CloseKeeps(s, p, fd, mode);
      CloseKinds(s, p, fd, mode);
      SameKindsKeep(s, Close(s, p, fd, mode).s, standard);
      CloseDescriptor(p, d, mode);
      Restore();
      r := 0;
    }

    lemma Restore()
      requires Valid() && Inv(Abs()) && store.live == LiveIn(Abs()) && KindsOk(Abs(), standard)
      ensures Ready()
    {
    }

    method CloseDescriptor(p: int, d: int, mode: int)
      requires Valid() && Inv(Abs()) && 0 <= p < |holders| && d in Abs().H(p).descs
      modifies Repr
      ensures Valid() && store.live == old(store.live) && Abs() == Closed(old(Abs()), p, d, mode)
    {
      ghost var s := Abs();
      InvParts(s);
      Leads(p, d);
      var h := descs[d].resource;
      KnownKind(s, h);
      CloseForm(s, p, d, h, mode);
      StillLeads(s, p, d, h);
      ClearedLeads(OutOfProcess(s, p, d), d, h, mode);
      hide Valid, Inv, DescInv, HandlesOk, Unlink, Shift, OutOfProcess, OutOfResource, ClearSlot, Remove;
      LeaveProcess(p, d);
      ResourceAt(h);
      if resources[h].kind > STANDARD_RESOURCE_TYPE {
        var result := ClearMode(h, mode);
        assert result == 1;
      }
      DescriptorAt(d);
      LeaveResource(d, h, descs[d].ptr);
    }

    /** The release of all descriptors in internal_exit. */
    method ReleaseDescriptors(p: int)
      requires 0 <= p < |regs| && Ready()
      modifies Repr
      ensures Ready() && Abs() == Release(old(Abs()), p)
    {
      hide *;
      ghost var s := Abs();
      RegistersApart();
      ReadyParts();
      HolderAt(p);
      Listings();
      var d := lists.held.First(p);
      while d != -1
        invariant Ready() && Release(Abs(), p) == Release(s, p)
        invariant d == if Abs().H(p).descs == [] then -1 else Abs().H(p).descs[0]
        invariant {this, store, store.pool, srPool, mqPool, descPool, ptrPool} <= Repr
        decreases |Abs().H(p).descs|
      {
        ghost var t := Abs();
        ReadyParts();
        HolderInState(p);
        UnlinkKeeps(t, p, d);
        UnlinkKinds(t, p, d);
        SameKindsKeep(t, Unlink(t, p, d), standard);
        ReleaseOne(t, p);
        UnlinkedSizes(t, p, d);
        Leads(p, d);
        var h, ptr := descs[d].resource, descs[d].ptr;
        CloseForm(t, p, d, h, 0);
        StillLeads(t, p, d, h);
        LeaveProcess(p, d);
        LeaveResource(d, h, ptr);
        Restore();
        HolderAt(p);
        HolderInState(p);
        Listings();
        d := lists.held.First(p);
      }
      ReadyParts();
      if Abs().H(p).descs != [] {
        HeldNotNull(Abs(), p);
      }
      ReleaseNone(Abs(), p);
    }

    lemma HolderInState(p: int)
      requires Valid() && 0 <= p < |holders|
      ensures 0 <= p < |Abs().holders|
    {
    }

    /** PCB_alloc. */
    method ResetDescriptors(p: int)
      requires 0 <= p < |regs| && Ready()
      modifies Repr
      ensures Ready() && Abs() == Reset(old(Abs()), p)
    {
      hide *;
      ghost var s := Abs();
      RegistersApart();
      ReadyParts();
      HolderInState(p);
      ResetKeepsInv(s, p);
      ResetForm(s, p);
      SameKindsKeep(s, Reset(s, p), standard);
      SetLastFd(p, 0);
      ForgetDescriptors(p);
      Restore();
    }

    // ---------- destroy ----------

    /** internal_destroyResource; p makes the call. */
    method InternalDestroyResource(p: int, id: int)
      requires 0 <= p < |regs| && Ready()
      modifies Repr, regs[p]
      ensures Ready() && Abs() == Destroy(old(Abs()), id).s
      ensures Value(regs[p].syscallRetvalue) == Destroy(old(Abs()), id).ret
      ensures regs[p].returnValue == old(regs[p].returnValue)
    {
      RegistersApart();
      hide *;
      var r := DestroyResource(id);
      SetResult(p, r);
    }

    method DestroyResource(id: int) returns (r: int)
      requires Ready()
      modifies Repr
      ensures Ready() && Abs() == Destroy(old(Abs()), id).s
      ensures Value(r) == Destroy(old(Abs()), id).ret
    {
      hide *;
      ghost var s := Abs();
      ReadyParts();
      DestroyResult(s, id);
      DestroyIs(s, id);
      var h := ResourceListById(id);
      if h == NULL {
        return DSOS_ERESOURCECLOSE;
      }
      var open := HasEntries(h);
      if open {
        return DSOS_ERESOURCEINUSE;
      }
      DestroyedKeeps(s, h);
      DestroyedKinds(s, h, standard);
      RemoveBlock(h);
      Restore();
      r := 0;
    }

    lemma Entries(h: int)
      requires Valid() && 0 <= h < |resources|
      ensures resources[h].kind == Abs().R(h).kind
    {
    }

    /** List_detach from the resource list and Resource_free. */
    method RemoveBlock(h: int)
      requires Valid() && Inv(Abs()) && store.live == LiveIn(Abs()) && KindsOk(Abs(), standard)
      requires h in Abs().listed && 0 <= h < |resources|
      modifies Repr
      ensures Valid() && Abs() == Destroyed(old(Abs()), h)
      ensures store.live == if old(Abs()).R(h).kind == MESSAGE_QUEUE_TYPE then LiveIn(old(Abs())) - {h}
                            else LiveIn(old(Abs()))
    {
      hide *;
      ghost var s := Abs();
      Entries(h);
      DestroyedForm(s, h, standard);
      RemoveListed(h);
      Entries(h);
      if resources[h].kind == MESSAGE_QUEUE_TYPE {
        FreeMessages(h);
        var r := FreeQueueBlock(h);
      } else {
        var r := FreeStandard(h);
      }
    }

    // ---------- messages ----------

    /** The queue that a descriptor names, or the error. */
    method QueueByFd(p: int, fd: int) returns (h: int)
      requires 0 <= p < |regs| && Ready()
      ensures h == QueueOf(Abs(), p, fd)
      ensures h >= 0 ==> h < |resources| && h in store.live && h in Abs().listed
    {
      hide *;
      RegistersApart();
      ReadyParts();
      QueueParts(Abs(), p, fd);
      var d := DescriptorListByFd(p, fd);
      if d == NULL {
        return DSOS_RESOURCENOTFOUND;
      }
      Leads(p, d);
      h := descs[d].resource;
      Entries(h);
      if resources[h].kind != MESSAGE_QUEUE_TYPE {
        return DSOS_ERESOURCETYPEWRONG;
      }
    }

    /** internal_message_queue_write.  For a full queue it is not the result register that is set. */
    method InternalMessageQueueWrite(p: int, fd: int, buffer: seq<char>, length: int)
      requires 0 <= p < |regs| && Ready() && CanWrite(Abs(), p, fd, buffer, length)
      modifies Repr, regs[p]
      ensures Ready() && Abs() == Write(old(Abs()), p, fd, buffer, length).s
      ensures regs[p].syscallRetvalue
              == Register(old(regs[p].syscallRetvalue), Write(old(Abs()), p, fd, buffer, length).ret)
      ensures regs[p].returnValue == if Write(old(Abs()), p, fd, buffer, length).ret.Value?
                                     then old(regs[p].returnValue)
                                     else DSOS_MESSAGEQUEUEFULL
    {
      hide *;
      RegistersApart();
      ghost var s := Abs();
      WriteResult(s, p, fd, buffer, length);
      if length < 0 || length > MESSAGE_STRING_MAX_LENGTH {
        SetResult(p, DSOS_MESSAGELENGTHNOTVALID);
        return;
      }
      var h := QueueByFd(p, fd);
      if h < 0 {
        SetResult(p, h);
        return;
      }
      ReadyParts();
      var size, b := FirstMessage(h);
      if size == M_FOR_MQ {
        SetOther(p, DSOS_MESSAGEQUEUEFULL);
        return;
      }
      Send(p, fd, h, buffer, length);
      SetResult(p, length);
    }

    method SetOther(p: int, r: int)
      requires 0 <= p < |regs| && Ready()
      modifies regs[p]
      ensures regs[p].returnValue == r && regs[p].syscallRetvalue == old(regs[p].syscallRetvalue)
      ensures Ready() && Abs() == old(Abs())
    {
      RegistersApart();
      hide Ready, Shift;
      regs[p].returnValue := r;
    }

    method Send(ghost p: int, ghost fd: int, h: int, buffer: seq<char>, length: int)
      requires Ready() && 0 <= h == QueueOf(Abs(), p, fd) && h < |resources| && h in store.live
      requires 0 <= length <= MESSAGE_STRING_MAX_LENGTH && length <= |buffer|
      requires Abs().freeMsgs != [] && |Abs().R(h).msgs| != M_FOR_MQ
      modifies Repr
      ensures Ready() && Abs() == Put(old(Abs()), h, buffer[..length])
    {
      hide *;
      ghost var s := Abs();
      ReadyParts();
      QueueListed(s, p, fd);
      PutKeeps(s, h, buffer[..length]);
      PutForm(s, h, buffer[..length]);
      SameKindsKeep(s, Put(s, h, buffer[..length]), standard);
      var m := AllocMessage(buffer, length);
      AppendMessage(h, m);
      Restore();
    }

    /** The size of a queue and the block of its first message. */
    method FirstMessage(h: int) returns (size: int, b: int)
      requires Valid() && h in store.live
      ensures size == |Abs().R(h).msgs|
      ensures if size == 0 then b == -1
              else b == Abs().R(h).msgs[0] && 0 <= b < |store.blocks| && store.TextIs(store.blocks[b], Abs().M(b).text)
    {
      StoreInRepr();
      ResourcesInRange();
      QueueHas(h);
      hide Valid, Shift, MS.Store.Valid, MS.Store.TextIs, MS.Store.Queued;
      size, b := store.First(h);
    }

    lemma QueueHas(h: int)
      requires Valid() && 0 <= h < |res|
      ensures h < |store.queues| && Abs().R(h).msgs == store.queues[h] && store.Valid()
      ensures |store.records| == |store.blocks|
    {
    }

    /** internal_message_queue_read, into a buffer of at least `length` characters. */
    method InternalMessageQueueRead(p: int, fd: int, buffer: array<char>, length: int)
      requires 0 <= p < |regs| && Ready() && buffer !in Repr && length <= buffer.Length
      modifies Repr, regs[p], buffer
      ensures Ready() && Abs() == Read(old(Abs()), p, fd, length).s
      ensures Value(regs[p].syscallRetvalue) == Read(old(Abs()), p, fd, length).ret
      ensures regs[p].returnValue == old(regs[p].returnValue)
      ensures var data := Read(old(Abs()), p, fd, length).data;
              |data| <= buffer.Length && buffer[..|data|] == data && buffer[|data|..] == old(buffer[..])[|data|..]
    {
      hide *;
      RegistersApart();
      ghost var s := Abs();
      ReadResult(s, p, fd, length);
      var r := ReadMessage(p, fd, buffer, length);
      SetResult(p, r);
    }

    method ReadMessage(p: int, fd: int, buffer: array<char>, length: int) returns (r: int)
      requires 0 <= p < |regs| && Ready() && buffer !in Repr && length <= buffer.Length
      modifies Repr, buffer
      ensures Ready() && Abs() == Read(old(Abs()), p, fd, length).s
      ensures Value(r) == Read(old(Abs()), p, fd, length).ret
      ensures var data := Read(old(Abs()), p, fd, length).data;
              |data| <= buffer.Length && buffer[..|data|] == data && buffer[|data|..] == old(buffer[..])[|data|..]
    {
      hide *;
      ghost var s := Abs();
      ReadResult(s, p, fd, length);
      assert buffer[0..] == buffer[..];
      var h := QueueByFd(p, fd);
      if h < 0 {
        return h;
      }
      ReadyParts();
      var size, b := FirstMessage(h);
      if size == 0 {
        SlotsAt(h);
        return if resources[h].writer != NULL then DSOS_WAITINGFORMESSAGE else DSOS_MESSAGEQUEUEEMPTY;
      }
      TextLength(b, s.M(b).text);
      if store.blocks[b].length > length {
        return DSOS_MESSAGELENGTHNOTVALID;
      }
      r := store.blocks[b].length;
      Copy(b, buffer);
      Receive(p, fd, h);
    }

    lemma SlotsAt(h: int)
      requires Valid() && 0 <= h < |resources|
      ensures resources[h].writer == Abs().R(h).writer
    {
    }

    lemma TextLength(b: int, text: seq<char>)
      requires 0 <= b < |store.blocks| && store.TextIs(store.blocks[b], text)
      ensures store.blocks[b].length == |text| && store.blocks[b].length <= store.blocks[b].msg.Length
      ensures store.blocks[b].msg[..store.blocks[b].length] == text
    {
    }

    method Copy(b: int, buffer: array<char>)
      requires Ready() && buffer !in Repr && 0 <= b < |store.blocks|
      requires 0 <= store.blocks[b].length <= store.blocks[b].msg.Length && store.blocks[b].length <= buffer.Length
      modifies buffer
      ensures Ready() && Abs() == old(Abs()) && store.live == old(store.live)
      ensures store.blocks[b].length == old(store.blocks[b].length)
      ensures buffer[..store.blocks[b].length] == old(store.blocks[b].msg[..store.blocks[b].length])
      ensures buffer[store.blocks[b].length..] == old(buffer[..])[store.blocks[b].length..]
    {
      hide *;
      RegistersApart();
      ReadyParts();
      StoreInRepr();
      StoreWithin();
      assert store.blocks[b] in store.blocks;
      assert old(buffer[..])[store.blocks[b].length..] == old(buffer[store.blocks[b].length..]);
      store.CopyOut(b, buffer);
    }

    lemma StoreWithin()
      requires Valid()
      ensures store.Repr <= Repr
    {
    }

    /** List_detach of the first message and m_free. */
    method Receive(ghost p: int, ghost fd: int, h: int)
      requires Ready() && 0 <= h == QueueOf(Abs(), p, fd) && h < |resources| && h in store.live && Abs().R(h).msgs != []
      modifies Repr
      ensures Ready() && Abs() == Drop(old(Abs()), h, false)
    {
      hide *;
      ghost var s := Abs();
      ReadyParts();
      QueueListed(s, p, fd);
      DropKeeps(s, h);
      DropForm(s, h);
      SameKindsKeep(s, Drop(s, h, false), standard);
      var m := TakeMessage(h);
      var r := FreeMessage(m);
      Restore();
    }
  }

  // ---------- initialisation ----------

  method NewResources(n: nat) returns (rs: seq<ResourceBlock>, ghost own: set<object>)
    ensures |rs| == n && Distinct(rs) && fresh(own)
    ensures forall i :: 0 <= i < n ==> rs[i] in own && ResourceIs(rs[i], NoResource)
  {
    rs, own := [], {};
    for i := 0 to n
      invariant |rs| == i && Distinct(rs) && fresh(own)
      invariant forall j :: 0 <= j < i ==> rs[j] in own && ResourceIs(rs[j], NoResource)
    {
      var r := new ResourceBlock();
      rs, own := rs + [r], own + {r};
    }
  }

  method NewDescriptors(n: nat) returns (xs: seq<DescriptorBlock>, ghost own: set<object>)
    ensures |xs| == n && Distinct(xs) && fresh(own)
    ensures forall i :: 0 <= i < n ==> xs[i] in own && DescriptorIs(xs[i], UnusedDescriptor)
  {
    xs, own := [], {};
    for i := 0 to n
      invariant |xs| == i && Distinct(xs) && fresh(own)
      invariant forall j :: 0 <= j < i ==> xs[j] in own && DescriptorIs(xs[j], UnusedDescriptor)
    {
      var x := new DescriptorBlock();
      xs, own := xs + [x], own + {x};
    }
  }

  method NewPointers(n: nat) returns (ps: seq<PointerBlock>, ghost own: set<object>)
    ensures |ps| == n && Distinct(ps) && fresh(own)
    ensures forall i :: 0 <= i < n ==> ps[i] in own && ps[i].descriptor == NULL
  {
    ps, own := [], {};
    for i := 0 to n
      invariant |ps| == i && Distinct(ps) && fresh(own)
      invariant forall j :: 0 <= j < i ==> ps[j] in own && ps[j].descriptor == NULL
    {
      var x := new PointerBlock();
      ps, own := ps + [x], own + {x};
    }
  }

  method NewHolders(n: nat) returns (hs: seq<HolderBlock>, ghost own: set<object>)
    ensures |hs| == n && Distinct(hs) && fresh(own)
    ensures forall i :: 0 <= i < n ==> hs[i] in own && HolderIs(hs[i], Holder(0, []))
  {
    hs, own := [], {};
    for i := 0 to n
      invariant |hs| == i && Distinct(hs) && fresh(own)
      invariant forall j :: 0 <= j < i ==> hs[j] in own && HolderIs(hs[j], Holder(0, []))
    {
      var h := new HolderBlock();
      hs, own := hs + [h], own + {h};
    }
  }

  method NewRegisters(n: nat) returns (rg: seq<Registers>)
    ensures |rg| == n && forall i :: 0 <= i < n ==> fresh(rg[i])
  {
    rg := [];
    for i := 0 to n
      invariant |rg| == i && forall j :: 0 <= j < i ==> fresh(rg[j])
    {
      var r := new Registers();
      rg := rg + [r];
    }
  }

  method NewPool(itemSize: int, n: nat) returns (p: PoolAllocator)
    requires itemSize > 0 && n > 0
    ensures fresh(p) && fresh(p.freeList) && p.Valid() && p.sizeMax == n && p.free == seq(n, j => j)
  {
    hide PoolAllocator.Valid;
    p := new PoolAllocator();
    var r := p.Init(itemSize, n, n * (itemSize + SIZEOF_INT));
  }

  method NewPools(sizes: seq<nat>) returns (pools: seq<PoolAllocator>, ghost own: set<object>)
    requires |sizes| == 4 && forall i :: 0 <= i < 4 ==> sizes[i] > 0
    ensures |pools| == 4 && Distinct(pools) && FreshPools(pools, sizes) && fresh(own)
    ensures forall i :: 0 <= i < 4 ==> pools[i] in own && pools[i].freeList in own
  {
    hide PoolAllocator.Valid;
    var a := NewPool(SIZEOF_RESOURCE, sizes[0]);
    var b := NewPool(SIZEOF_MESSAGE_QUEUE, sizes[1]);
    var c := NewPool(SIZEOF_DESCRIPTOR, sizes[2]);
    var d := NewPool(SIZEOF_DESCRIPTOR_PTR, sizes[3]);
    pools := [a, b, c, d];
    own := {a, b, c, d, a.freeList, b.freeList, c.freeList, d.freeList};
  }

  /** The kernel's blocks, apart from the message store. */
  method NewBlocks(standard: nat, queues: nat, descriptors: nat, processes: nat)
    returns (rs: seq<ResourceBlock>, xs: seq<DescriptorBlock>, ps: seq<PointerBlock>, hs: seq<HolderBlock>,
             ghost own: set<object>)
    ensures |rs| == standard + queues && |xs| == |ps| == descriptors && |hs| == processes
    ensures Distinct(rs) && Distinct(xs) && Distinct(ps) && Distinct(hs) && fresh(own)
    ensures Unused(rs, xs, ps, hs) && Parts(rs, xs, ps, hs, [], [], own)
  {
    hide Distinct;
    ghost var a, b, c, d;
    rs, a := NewResources(standard + queues);
    xs, b := NewDescriptors(descriptors);
    ps, c := NewPointers(descriptors);
    hs, d := NewHolders(processes);
    own := a + b + c + d;
  }

  /** Objects that are younger than `own` are not in it. */
  lemma MoreParts(rs: seq<ResourceBlock>, xs: seq<DescriptorBlock>, ps: seq<PointerBlock>, hs: seq<HolderBlock>,
                  rg: seq<Registers>, pools: seq<PoolAllocator>, own: set<object>, p: set<object>)
    requires Parts(rs, xs, ps, hs, [], [], own) && forall i :: 0 <= i < |rg| ==> rg[i] !in own + p
    requires forall i :: 0 <= i < |pools| ==> pools[i] in p && pools[i].freeList in p
    ensures Parts(rs, xs, ps, hs, rg, pools, own + p)
  {
  }

  /** Resource_init, Descriptor_init, StandardResource_init and mq_init. */
  method Initialise(standard: nat, queues: nat, descriptors: nat, processes: nat, messages: nat)
    returns (k: ResourceKernel)
    requires standard > 0 && queues > 0 && descriptors > 0 && messages > 0
    ensures fresh(k.Repr) && fresh(k.regs) && |k.regs| == processes
    ensures k.Ready() && k.Abs() == Boot(standard, queues, descriptors, processes, messages)
  {
    hide *;
    var st := MS.NewStore(standard + queues, messages);
    StoreHolds(st);
    ghost var own, p;
    var rs, xs, ps, hs;
    var pools;
    rs, xs, ps, hs, own := NewBlocks(standard, queues, descriptors, processes);
    pools, p := NewPools([standard, queues, descriptors, descriptors]);
    var ls := NewLists(processes, standard + queues, descriptors);
    var rg := NewRegisters(processes);
    MoreParts(rs, xs, ps, hs, rg, pools, own, p);
    k := new ResourceKernel(standard, rs, xs, ps, hs, rg, pools, ls, st, own + p);
    BootInv(standard, queues, descriptors, processes, messages);
    BootKinds(standard, queues, descriptors, processes, messages);
    k.Restore();
  }

  lemma StoreHolds(st: MS.Store)
    requires st.Valid()
    ensures st in st.Repr
  {
  }

  lemma BootKinds(standard: nat, queues: nat, descriptors: nat, processes: nat, messages: nat)
    ensures var s := Boot(standard, queues, descriptors, processes, messages); LiveIn(s) == {} && KindsOk(s, standard)
  {
  }
}
