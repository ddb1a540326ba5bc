/** What every run keeps about resources and the descriptors that name them. */
module Descriptors {
  import opened Sequences
  import opened ResourceModel

  // ---------- the invariant ----------

  /** The lists and pools of resources are apart, ids are unique, and only listed message queues hold
      messages. */
  ghost predicate HandlesOk(s: State) {
    && Distinct(s.listed) && Distinct(s.freeStd) && Distinct(s.freeMq)
    && (forall h :: h in s.listed ==> 0 <= h < |s.res| && h !in s.freeStd && h !in s.freeMq)
    && (forall h :: h in s.freeStd ==> 0 <= h < |s.res| && h !in s.freeMq)
    && (forall h :: h in s.freeMq ==> 0 <= h < |s.res|)
    && (forall h :: s.R(h).msgs != [] ==> h in s.listed && s.R(h).kind == MESSAGE_QUEUE_TYPE)
    && (forall h :: h in s.listed ==> STANDARD_RESOURCE_TYPE <= s.R(h).kind <= MESSAGE_QUEUE_TYPE)
    && (forall h, k :: h in s.listed && k in s.listed && s.R(h).id == s.R(k).id ==> h == k)
  }

  /** The two descriptor pools go in lock step: a descriptor and its pointer have the same number. */
  ghost predicate PoolsOk(s: State) {
    && s.freePtrs == s.freeDescs && |s.backs| == |s.descs| && Distinct(s.freeDescs)
    && (forall d :: d in s.freeDescs ==> 0 <= d < |s.descs|)
  }

  ghost predicate InUse(s: State, d: int) {
    0 <= d < |s.descs| && d !in s.freeDescs && s.D(d).ptr == d && s.Back(d) == d
  }

  /** Descriptor d of process p is entered in its resource. */
  ghost predicate Held(s: State, p: int, d: int) {
    && InUse(s, d) && s.D(d).proc == p && s.D(d).fd < s.H(p).lastFd
    && s.D(d).res in s.listed && d in s.R(s.D(d).res).ptrs
  }

  ghost predicate HoldersOk(s: State) {
    && (forall p, d {:trigger d in s.H(p).descs} :: d in s.H(p).descs ==> Held(s, p, d))
    && (forall p :: Distinct(s.H(p).descs))
    && (forall p, d, e {:trigger d in s.H(p).descs, e in s.H(p).descs} ::
          d in s.H(p).descs && e in s.H(p).descs && s.D(d).fd == s.D(e).fd ==> d == e)
  }

  ghost predicate EntriesOk(s: State) {
    && (forall h, x {:trigger x in s.R(h).ptrs} :: x in s.R(h).ptrs ==> InUse(s, x) && s.D(x).res == h && h in s.listed)
    && (forall h :: Distinct(s.R(h).ptrs))
  }

  ghost predicate DescInv(s: State) {
    HandlesOk(s) && PoolsOk(s) && HoldersOk(s) && EntriesOk(s)
  }

  /** Every entry of a resource belongs to a descriptor that a process holds. */
  ghost predicate NoLeak(s: State) {
    forall h, x {:trigger x in s.R(h).ptrs} :: x in s.R(h).ptrs ==> x in s.H(s.D(x).proc).descs
  }

  /** Descriptors held by processes and entries of resources correspond one to one. */
  lemma Bijection(s: State, d: int)
    requires DescInv(s) && NoLeak(s)
    ensures (exists p :: d in s.H(p).descs) <==> (exists h :: d in s.R(h).ptrs)
    ensures forall p, q :: d in s.H(p).descs && d in s.H(q).descs ==> p == q
    ensures forall h, k :: d in s.R(h).ptrs && d in s.R(k).ptrs ==> h == k
  {
    if p :| d in s.H(p).descs {
      assert Held(s, p, d);
      assert d in s.R(s.D(d).res).ptrs;
    }
    if h :| d in s.R(h).ptrs {
      assert d in s.H(s.D(d).proc).descs;
    }
    forall p, q | d in s.H(p).descs && d in s.H(q).descs ensures p == q {
      assert Held(s, p, d) && Held(s, q, d);
    }
  }

  // ---------- steps that move no descriptor ----------

  /** The entries stay; a process may at most forget all its descriptors. */
  ghost predicate LinksKept(s: State, t: State) {
    && t.descs == s.descs && t.backs == s.backs && t.freeDescs == s.freeDescs && t.freePtrs == s.freePtrs
    && (forall p :: t.H(p) == s.H(p) || t.H(p).descs == [])
    && (forall h :: t.R(h).ptrs == s.R(h).ptrs)
    && (forall h :: h in s.listed && s.R(h).ptrs != [] ==> h in t.listed)
  }

  lemma LinksKeptHold(s: State, t: State)
    requires HoldersOk(s) && EntriesOk(s) && LinksKept(s, t)
    ensures HoldersOk(t) && EntriesOk(t)
  {
    assert forall d :: s.D(d) == t.D(d) && s.Back(d) == t.Back(d);
    forall p, d | d in t.H(p).descs ensures Held(t, p, d) && d in s.H(p).descs {
      assert Held(s, p, d);
    }
    forall h, x | x in t.R(h).ptrs ensures InUse(t, x) && t.D(x).res == h && h in t.listed {
      assert x in s.R(h).ptrs && InUse(s, x);
    }
    forall h ensures Distinct(t.R(h).ptrs) { assert Distinct(s.R(h).ptrs); }
    forall p ensures Distinct(t.H(p).descs) { assert Distinct(s.H(p).descs); }
  }

  lemma LeaksKept(s: State, t: State)
    requires NoLeak(s) && LinksKept(s, t) && forall p :: t.H(p) == s.H(p)
    ensures NoLeak(t)
  {
    forall h, x | x in t.R(h).ptrs ensures x in t.H(t.D(x).proc).descs {
      assert x in s.R(h).ptrs && t.D(x) == s.D(x);
    }
  }

  ghost predicate SameLinks(s: State, t: State) {
    && t.descs == s.descs && t.backs == s.backs && t.freeDescs == s.freeDescs && t.freePtrs == s.freePtrs
    && t.holders == s.holders && t.listed == s.listed && t.freeStd == s.freeStd && t.freeMq == s.freeMq
    && |t.res| == |s.res| && forall h :: SameEntry(s.R(h), t.R(h))
  }

  ghost predicate SameEntry(r: Resource, q: Resource) {
    && q.ptrs == r.ptrs && q.id == r.id && q.kind == r.kind
    && (q.msgs != [] ==> r.msgs != [] || r.kind == MESSAGE_QUEUE_TYPE)
  }

  lemma SameLinksKeep(s: State, t: State)
    requires DescInv(s) && SameLinks(s, t)
    requires forall h :: t.R(h).msgs != [] ==> h in s.listed
    ensures DescInv(t) && (NoLeak(s) ==> NoLeak(t))
  {
    assert LinksKept(s, t) by {
      forall h ensures t.R(h).ptrs == s.R(h).ptrs { assert SameEntry(s.R(h), t.R(h)); }
    }
    LinksKeptHold(s, t);
    if NoLeak(s) { LeaksKept(s, t); }
    hide HoldersOk, EntriesOk, LinksKept, NoLeak;
    assert forall h :: SameEntry(s.R(h), t.R(h));
  }

  // ---------- open ----------

  /** Descriptor d enters process p and resource h. */
  ghost predicate Linked(s: State, t: State, p: int, h: int, d: int) {
    && s.freeDescs != [] && d == s.freeDescs[0] && t.freeDescs == t.freePtrs == s.freeDescs[1..]
    && |t.descs| == |s.descs| && |t.backs| == |s.backs| && |t.res| == |s.res|
    && t.listed == s.listed && t.freeStd == s.freeStd && t.freeMq == s.freeMq
    && t.D(d).proc == p && t.D(d).res == h && t.D(d).fd == s.H(p).lastFd && t.D(d).ptr == d && t.Back(d) == d
    && (forall x :: x != d ==> t.D(x) == s.D(x) && t.Back(x) == s.Back(x))
    && t.H(p).lastFd == s.H(p).lastFd + 1 && t.H(p).descs == s.H(p).descs + [d]
    && (forall q :: q != p ==> t.H(q) == s.H(q))
    && t.R(h).ptrs == s.R(h).ptrs + [d] && t.R(h) == s.R(h).(ptrs := t.R(h).ptrs)
    && (forall k :: k != h ==> t.R(k) == s.R(k))
  }

  lemma LinkLinks(s: State, p: int, h: int, mode: int)
    requires PoolsOk(s) && s.freeDescs != [] && 0 <= p < |s.holders| && 0 <= h < |s.res|
    ensures Linked(s, Link(s, p, h, mode), p, h, s.freeDescs[0])
  {
    assert s.freeDescs[0] in s.freeDescs;
  }

  lemma TakenFirst(s: State, t: State, p: int, h: int, d: int)
    requires PoolsOk(s) && Linked(s, t, p, h, d)
    ensures d in s.freeDescs && 0 <= d < |s.descs|
    ensures forall x :: x in t.freeDescs <==> x in s.freeDescs && x != d
    ensures Distinct(t.freeDescs)
  {
    assert s.freeDescs[0] in s.freeDescs && s.freeDescs == [d] + t.freeDescs;
    forall x | x in t.freeDescs ensures x != d {
      var i :| 0 <= i < |t.freeDescs| && t.freeDescs[i] == x;
      assert s.freeDescs[i + 1] == x;
    }
  }

  lemma LinkedHolders(s: State, t: State, p: int, h: int, d: int)
    requires PoolsOk(s) && HoldersOk(s) && Linked(s, t, p, h, d) && h in s.listed
    ensures HoldersOk(t)
  {
    TakenFirst(s, t, p, h, d);
    forall q, e | e in s.H(q).descs ensures e != d && Held(t, q, e) {
      assert Held(s, q, e);
    }
    forall q ensures Distinct(t.H(q).descs) {
      assert Distinct(s.H(q).descs);
      if q == p {
        DistinctConcat(s.H(p).descs, [d]);
      }
    }
    assert d in t.R(h).ptrs;
    forall q, e, f | e in t.H(q).descs && f in t.H(q).descs && t.D(e).fd == t.D(f).fd ensures e == f {
      assert e in s.H(q).descs ==> Held(s, q, e);
      assert f in s.H(q).descs ==> Held(s, q, f);
    }
  }

  lemma LinkedEntries(s: State, t: State, p: int, h: int, d: int)
    requires PoolsOk(s) && EntriesOk(s) && Linked(s, t, p, h, d) && h in s.listed
    ensures EntriesOk(t)
  {
    TakenFirst(s, t, p, h, d);
    forall k, x | x in t.R(k).ptrs ensures InUse(t, x) && t.D(x).res == k && k in t.listed {
      assert x in s.R(k).ptrs ==> InUse(s, x);
    }
    forall k ensures Distinct(t.R(k).ptrs) {
      assert Distinct(s.R(k).ptrs);
      if k == h {
        assert d in s.R(h).ptrs ==> InUse(s, d);
        DistinctConcat(s.R(h).ptrs, [d]);
      }
    }
  }

  lemma LinkedKeeps(s: State, t: State, p: int, h: int, d: int)
    requires DescInv(s) && Linked(s, t, p, h, d) && h in s.listed
    ensures DescInv(t) && (NoLeak(s) ==> NoLeak(t))
  {
    TakenFirst(s, t, p, h, d);
    LinkedHolders(s, t, p, h, d);
    LinkedEntries(s, t, p, h, d);
    if NoLeak(s) {
      forall k, x | x in t.R(k).ptrs ensures x in t.H(t.D(x).proc).descs {
        assert x in s.R(k).ptrs ==> InUse(s, x);
      }
    }
  }

  // ---------- close and exit ----------

  /** Descriptor d leaves process p and its resource h. */
  ghost predicate Unlinked(s: State, t: State, p: int, h: int, d: int) {
    && d in s.H(p).descs && h == s.D(d).res
    && t.freeDescs == t.freePtrs == [d] + s.freeDescs
    && t.descs == s.descs && t.backs == s.backs && |t.res| == |s.res|
    && t.listed == s.listed && t.freeStd == s.freeStd && t.freeMq == s.freeMq
    && t.H(p).lastFd == s.H(p).lastFd && t.H(p).descs == Remove(s.H(p).descs, d)
    && (forall q :: q != p ==> t.H(q) == s.H(q))
    && t.R(h).ptrs == Remove(s.R(h).ptrs, d) && t.R(h) == s.R(h).(ptrs := t.R(h).ptrs)
    && (forall k :: k != h ==> t.R(k) == s.R(k))
  }

  lemma UnlinkUnlinks(s: State, p: int, d: int)
    requires DescInv(s) && 0 <= p < |s.holders| && d in s.H(p).descs
    ensures Unlinked(s, Unlink(s, p, d), p, s.D(d).res, d)
  {
    assert Held(s, p, d);
  }

  lemma UnlinkedMembers(s: State, t: State, p: int, h: int, d: int)
    requires HoldersOk(s) && EntriesOk(s) && Unlinked(s, t, p, h, d)
    ensures forall q, e :: e in t.H(q).descs <==> e in s.H(q).descs && e != d
    ensures forall k, x :: x in t.R(k).ptrs <==> x in s.R(k).ptrs && x != d
    ensures forall q :: Distinct(t.H(q).descs)
    ensures forall k :: Distinct(t.R(k).ptrs)
  {
    assert Held(s, p, d);
    assert Distinct(s.H(p).descs) && Distinct(s.R(h).ptrs);
    RemoveMembers(s.H(p).descs, d);
    RemoveMembers(s.R(h).ptrs, d);
    RemoveDistinct(s.H(p).descs, d);
    RemoveDistinct(s.R(h).ptrs, d);
    forall q, e | e in s.H(q).descs ensures e == d ==> q == p {
      assert Held(s, q, e);
    }
    forall q ensures Distinct(t.H(q).descs) { assert Distinct(s.H(q).descs); }
    forall k ensures Distinct(t.R(k).ptrs) { assert Distinct(s.R(k).ptrs); }
  }

  lemma UnlinkedLinks(s: State, t: State, p: int, h: int, d: int)
    requires HoldersOk(s) && EntriesOk(s) && Unlinked(s, t, p, h, d)
    ensures HoldersOk(t) && EntriesOk(t)
  {
    assert Held(s, p, d);
    UnlinkedMembers(s, t, p, h, d);
    assert forall x :: t.D(x) == s.D(x) && t.Back(x) == s.Back(x);
    forall x ensures x in t.freeDescs <==> x == d || x in s.freeDescs { assert t.freeDescs == [d] + s.freeDescs; }
    forall q, e | e in t.H(q).descs ensures Held(t, q, e) {
      assert Held(s, q, e);
    }
    forall k, x | x in t.R(k).ptrs ensures InUse(t, x) && t.D(x).res == k && k in t.listed {
      assert InUse(s, x);
    }
  }

  lemma UnlinkedPools(s: State, t: State, p: int, h: int, d: int)
    requires HandlesOk(s) && PoolsOk(s) && HoldersOk(s) && Unlinked(s, t, p, h, d)
    ensures HandlesOk(t) && PoolsOk(t)
  {
    assert Held(s, p, d);
    hide HoldersOk, Remove;
    assert forall k :: t.R(k).msgs == s.R(k).msgs && t.R(k).kind == s.R(k).kind && t.R(k).id == s.R(k).id;
    UnlinkedHandles(s, t);
  }

  /** The same resources in the same lists. */
  lemma UnlinkedHandles(s: State, t: State)
    requires HandlesOk(s) && t.listed == s.listed && t.freeStd == s.freeStd && t.freeMq == s.freeMq
    requires |t.res| == |s.res|
    requires forall k :: t.R(k).msgs == s.R(k).msgs && t.R(k).kind == s.R(k).kind && t.R(k).id == s.R(k).id
    ensures HandlesOk(t)
  {
  }

  lemma UnlinkedLeaks(s: State, t: State, p: int, h: int, d: int)
    requires HoldersOk(s) && EntriesOk(s) && Unlinked(s, t, p, h, d) && NoLeak(s)
    ensures NoLeak(t)
  {
    UnlinkedMembers(s, t, p, h, d);
    hide HoldersOk, EntriesOk;
    forall k, x | x in t.R(k).ptrs ensures x in t.H(t.D(x).proc).descs {
      assert x in s.R(k).ptrs && t.D(x) == s.D(x);
    }
  }

  lemma UnlinkedKeeps(s: State, t: State, p: int, h: int, d: int)
    requires DescInv(s) && Unlinked(s, t, p, h, d)
    ensures DescInv(t) && (NoLeak(s) ==> NoLeak(t))
  {
    hide HandlesOk, PoolsOk, HoldersOk, EntriesOk, Unlinked, NoLeak;
    UnlinkedLinks(s, t, p, h, d);
    UnlinkedPools(s, t, p, h, d);
    if NoLeak(s) { UnlinkedLeaks(s, t, p, h, d); }
  }

  lemma {:induction false} ReleaseKeeps(s: State, p: int)
    requires DescInv(s) && 0 <= p < |s.holders|
    ensures DescInv(Release(s, p)) && Release(s, p).H(p).descs == [] && (NoLeak(s) ==> NoLeak(Release(s, p)))
    decreases |s.H(p).descs|
  {
    hide DescInv, NoLeak, Unlink;
    if s.H(p).descs != [] {
      var d := s.H(p).descs[0];
      UnlinkUnlinks(s, p, d);
      UnlinkedKeeps(s, Unlink(s, p, d), p, s.D(d).res, d);
      UnlinkedSizes(s, p, d);
      ReleaseKeeps(Unlink(s, p, d), p);
    }
  }

  lemma UnlinkedSizes(s: State, p: int, d: int)
    requires 0 <= p < |s.holders| && d in s.H(p).descs
    ensures |Unlink(s, p, d).holders| == |s.holders|
    ensures |Unlink(s, p, d).H(p).descs| < |s.H(p).descs|
  {
  }

  /** Forgetting the descriptors of a process keeps everything but, unless it had none, the bijection. */
  lemma ResetKeeps(s: State, p: int)
    requires DescInv(s) && 0 <= p < |s.holders|
    ensures DescInv(Reset(s, p))
    ensures NoLeak(s) ==> (NoLeak(Reset(s, p)) <==> s.H(p).descs == [])
  {
    var t := Reset(s, p);
    LinksKeptHold(s, t);
    if s.H(p).descs == [] {
      if NoLeak(s) { ResetLeaks(s, t, p); }
    } else {
      var d := s.H(p).descs[0];
      assert d in s.H(p).descs && Held(s, p, d);
      hide HoldersOk, EntriesOk;
      assert d in t.R(s.D(d).res).ptrs && t.D(d) == s.D(d) && d !in t.H(p).descs;
    }
  }

  lemma ResetLeaks(s: State, t: State, p: int)
    requires NoLeak(s) && LinksKept(s, t) && forall q :: t.H(q).descs == s.H(q).descs
    ensures NoLeak(t)
  {
    forall h, x | x in t.R(h).ptrs ensures x in t.H(t.D(x).proc).descs {
      assert x in s.R(h).ptrs && t.D(x) == s.D(x);
    }
  }

  // ---------- resources that come and go ----------

  /** Handle h enters the list with a new id and type. */
  ghost predicate Listed(s: State, t: State, h: int, id: int, kind: int) {
    && (h in s.freeStd || h in s.freeMq)
    && t.listed == s.listed + [h]
    && Distinct(t.freeStd) && Distinct(t.freeMq)
    && (forall x :: x in t.freeStd <==> x in s.freeStd && x != h)
    && (forall x :: x in t.freeMq <==> x in s.freeMq && x != h)
    && t.descs == s.descs && t.backs == s.backs && t.freeDescs == s.freeDescs && t.freePtrs == s.freePtrs
    && t.holders == s.holders && |t.res| == |s.res|
    && STANDARD_RESOURCE_TYPE <= kind <= MESSAGE_QUEUE_TYPE
    && t.R(h) == s.R(h).(id := id, kind := kind, ptrs := [], msgs := [])
    && (forall k :: k != h ==> t.R(k) == s.R(k))
  }

  lemma DistinctTail(s: seq<int>)
    requires Distinct(s) && s != []
    ensures Distinct(s[1..]) && forall x :: x in s[1..] <==> x in s && x != s[0]
  {
    forall x | x in s && x != s[0] ensures x in s[1..] {
      var i :| 0 <= i < |s| && s[i] == x;
      assert s[1..][i - 1] == x;
    }
  }

  lemma NewResourceLists(s: State, id: int, kind: int)
    requires HandlesOk(s) && 0 <= kind <= MESSAGE_QUEUE_TYPE && FreeOf(s, kind) != []
    ensures Listed(s, NewResource(s, id, kind), FreeOf(s, kind)[0], id, kind)
  {
    DistinctTail(FreeOf(s, kind));
    assert FreeOf(s, kind)[0] in FreeOf(s, kind);
  }

  lemma ListedHandles(s: State, t: State, h: int, id: int, kind: int)
    requires HandlesOk(s) && Listed(s, t, h, id, kind) && forall k :: k in s.listed ==> s.R(k).id != id
    ensures HandlesOk(t)
  {
    DistinctConcat(s.listed, [h]);
  }

  /** A resource that is not listed holds nothing. */
  lemma UnlistedIsEmpty(s: State, h: int)
    requires DescInv(s) && h !in s.listed
    ensures s.R(h).ptrs == [] && s.R(h).msgs == []
  {
    if s.R(h).ptrs != [] {
      var x := AMember(s.R(h).ptrs);
    }
  }

  lemma ListedKeeps(s: State, t: State, h: int, id: int, kind: int)
    requires DescInv(s) && Listed(s, t, h, id, kind) && forall k :: k in s.listed ==> s.R(k).id != id
    ensures DescInv(t) && (NoLeak(s) ==> NoLeak(t))
    ensures s.R(h).ptrs == [] && s.R(h).msgs == []
  {
    assert h !in s.listed;
    UnlistedIsEmpty(s, h);
    ListedHandles(s, t, h, id, kind);
    hide HandlesOk, HoldersOk, EntriesOk, NoLeak;
    assert LinksKept(s, t) by {
      assert forall k :: k in s.listed ==> k in t.listed;
      forall k ensures t.R(k).ptrs == s.R(k).ptrs {
        assert k == h || t.R(k) == s.R(k);
      }
      assert forall p :: t.H(p) == s.H(p);
    }
    hide Listed;
    LinksKeptHold(s, t);
    if NoLeak(s) { LeaksKept(s, t); }
  }

  /** Handle h, without entries, leaves the list for its pool. */
  ghost predicate Unlisted(s: State, t: State, h: int) {
    && h in s.listed && s.R(h).ptrs == [] && t.listed == Remove(s.listed, h)
    && (if s.R(h).kind == MESSAGE_QUEUE_TYPE then t.freeMq == [h] + s.freeMq && t.freeStd == s.freeStd
        else t.freeStd == [h] + s.freeStd && t.freeMq == s.freeMq)
    && t.descs == s.descs && t.backs == s.backs && t.freeDescs == s.freeDescs && t.freePtrs == s.freePtrs
    && t.holders == s.holders && |t.res| == |s.res|
    && t.R(h) == s.R(h).(msgs := []) && (forall k :: k != h ==> t.R(k) == s.R(k))
  }

  lemma UnlistedHandles(s: State, t: State, h: int)
    requires HandlesOk(s) && Unlisted(s, t, h)
    ensures HandlesOk(t)
  {
    RemoveMembers(s.listed, h);
    RemoveDistinct(s.listed, h);
  }

  /** A resource that is destroyed is not named by any descriptor that a process holds. */
  lemma UnlistedKeeps(s: State, t: State, h: int)
    requires DescInv(s) && Unlisted(s, t, h)
    ensures DescInv(t) && (NoLeak(s) ==> NoLeak(t))
    ensures forall p, d :: d in s.H(p).descs ==> s.D(d).res != h
  {
    UnlistedHandles(s, t, h);
    RemoveMembers(s.listed, h);
    forall p, d | d in s.H(p).descs ensures s.D(d).res != h {
      assert Held(s, p, d);
    }
    hide HandlesOk, HoldersOk, EntriesOk, NoLeak;
    assert LinksKept(s, t);
    hide Unlisted;
    LinksKeptHold(s, t);
    if NoLeak(s) { LeaksKept(s, t); }
  }
}
