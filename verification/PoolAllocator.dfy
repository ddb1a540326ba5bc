/** The fixed-size block allocator (pool_allocator.c): a free list threaded through an int array
    that follows the blocks in the same memory area. */
module Pools {
  import opened Sequences

  datatype PoolResult = Success | NotEnoughMemory | UnalignedFree | OutOfRange | DoubleFree

  const NULL_IDX := -1
  const DETACHED_IDX := -2
  const SIZEOF_INT := 4

  // C's `/` and `%` truncate toward zero.
  function CDiv(a: int, b: int): int
    requires b != 0
  {
    if a >= 0 then a / b else -((-a) / b)
  }

  function CMod(a: int, b: int): int
    requires b != 0
  {
    a - CDiv(a, b) * b
  }

  /** The i-th block of the chain; the end marker after the last one. */
  ghost function FreeAt(free: seq<nat>, i: nat): int {
    if i < |free| then free[i] else NULL_IDX
  }

  ghost predicate LinkedAt(links: seq<int>, free: seq<nat>, i: nat)
    requires i < |free|
  {
    free[i] < |links| && links[free[i]] == FreeAt(free, i + 1)
  }

  /** `free` is the chain that starts at `first` and follows `links` to the end marker. */
  ghost predicate IsChain(links: seq<int>, first: int, free: seq<nat>) {
    first == FreeAt(free, 0) && forall i :: 0 <= i < |free| ==> LinkedAt(links, free, i)
  }

  /** Distinct chain members, and every other slot marked detached. */
  ghost predicate Represents(links: seq<int>, first: int, free: seq<nat>) {
    && IsChain(links, first, free)
    && Distinct(free)
    && (forall b :: 0 <= b < |links| && b !in free ==> links[b] == DETACHED_IDX)
  }

  lemma ChainTail(links: seq<int>, first: int, free: seq<nat>)
    requires IsChain(links, first, free) && free != []
    ensures 0 <= first < |links| && IsChain(links, links[first], free[1..])
  {
    assert LinkedAt(links, free, 0);
    forall i | 0 <= i < |free[1..]| ensures LinkedAt(links, free[1..], i) {
      assert LinkedAt(links, free, i + 1);
    }
  }

  /** The array alone determines the free stack. */
  lemma {:induction false} ChainUnique(links: seq<int>, first: int, f: seq<nat>, g: seq<nat>)
    requires IsChain(links, first, f) && IsChain(links, first, g)
    ensures f == g
    decreases |f|
  {
    if f != [] {
      assert g != [] && f[0] == g[0];
      ChainTail(links, first, f);
      ChainTail(links, first, g);
      ChainUnique(links, links[first], f[1..], g[1..]);
      assert f == [f[0]] + f[1..] && g == [g[0]] + g[1..];
    }
  }

  lemma PopRepresents(links: seq<int>, first: int, free: seq<nat>)
    requires Represents(links, first, free) && free != []
    ensures 0 <= first < |links| && Represents(links[first := DETACHED_IDX], links[first], free[1..])
  {
    ChainTail(links, first, free);
    var links', rest := links[first := DETACHED_IDX], free[1..];
    forall i | 0 <= i < |rest| ensures LinkedAt(links', rest, i) {
      assert LinkedAt(links, rest, i);
      assert rest[i] == free[i + 1] != free[0];
    }
    assert free == [first] + rest;
  }

  lemma PushRepresents(links: seq<int>, first: int, free: seq<nat>, b: nat)
    requires Represents(links, first, free) && b < |links| && b !in free
    ensures Represents(links[b := first], b, [b] + free)
  {
    var links', free' := links[b := first], [b] + free;
    forall i | 0 <= i < |free'| ensures LinkedAt(links', free', i) {
      if i > 0 {
        assert LinkedAt(links, free, i - 1);
        assert free'[i] == free[i - 1] != b;
      }
    }
  }

  lemma FreeIffNotDetached(links: seq<int>, first: int, free: seq<nat>, b: nat)
    requires Represents(links, first, free) && b < |links|
    ensures b in free <==> links[b] != DETACHED_IDX
  {
    if b in free {
      var i :| 0 <= i < |free| && free[i] == b;
      assert LinkedAt(links, free, i);
    }
  }

  lemma MultipleBound(d: int, s: int)
    requires s > 0
    ensures d >= 1 ==> d * s >= s
    ensures d <= -1 ==> d * s <= -s
  {
  }

  lemma QuotientUnique(i: int, q: int, s: int)
    requires s > 0 && 0 <= i * s - q * s < s
    ensures i == q
  {
    assert i * s - q * s == (i - q) * s;
    MultipleBound(i - q, s);
  }

  lemma ExactQuotient(i: int, s: int)
    requires s > 0
    ensures (i * s) / s == i
  {
    QuotientUnique(i, (i * s) / s, s);
  }

  lemma BlockOffset(i: int, s: int)
    requires s > 0
    ensures CMod(i * s, s) == 0 && CDiv(i * s, s) == i
  {
    if i * s >= 0 {
      ExactQuotient(i, s);
    } else {
      ExactQuotient(-i, s);
      assert -(i * s) == (-i) * s;
    }
  }

  lemma AlignedIsMultiple(offset: int, itemSize: int)
    requires itemSize > 0
    ensures CMod(offset, itemSize) == 0 <==> exists i :: offset == i * itemSize
  {
    if CMod(offset, itemSize) == 0 {
      assert offset == CDiv(offset, itemSize) * itemSize;
    }
    if i :| offset == i * itemSize {
      BlockOffset(i, itemSize);
    }
  }

  /** Distinct blocks, and the bookkeeping area, occupy disjoint byte ranges of the memory area. */
  lemma LayoutDisjoint(itemSize: int, numItems: int, memorySize: int, i: int, j: int)
    requires itemSize > 0 && memorySize >= numItems * (itemSize + SIZEOF_INT)
    requires 0 <= i < j < numItems
    ensures 0 <= i * itemSize
    ensures i * itemSize + itemSize <= j * itemSize
    ensures j * itemSize + itemSize <= numItems * itemSize
    ensures numItems * itemSize + numItems * SIZEOF_INT <= memorySize
  {
    assert j * itemSize - (i + 1) * itemSize == (j - i - 1) * itemSize;
    assert numItems * itemSize - (j + 1) * itemSize == (numItems - j - 1) * itemSize;
  }

  class PoolAllocator {
    var freeList: array<int>
    var bufferSize: int
    var size: int
    var sizeMax: int
    var itemSize: int
    var firstIdx: int
    ghost var free: seq<nat>   // the free blocks, next to be handed out first

    ghost predicate Valid()
      reads this, freeList
    {
      && sizeMax == freeList.Length && 0 < itemSize && bufferSize == itemSize * sizeMax
      && size == |free|
      && Represents(freeList[..], firstIdx, free)
    }

    constructor ()
      ensures fresh(freeList)
    {
      freeList := new int[0];
      bufferSize, size, sizeMax, itemSize, firstIdx, free := 0, 0, 0, 0, 0, [];
    }

    /** With no blocks at all the source writes before the array, so it demands at least one. */
    method Init(itemSize: int, numItems: int, memorySize: int) returns (r: PoolResult)
      requires itemSize > 0 && numItems > 0
      modifies this
      ensures r == if memorySize < numItems * (itemSize + SIZEOF_INT) then NotEnoughMemory else Success
      ensures r == NotEnoughMemory ==> unchanged(this)
      ensures r == Success ==>
                && Valid() && fresh(freeList)
                && this.itemSize == itemSize && sizeMax == numItems
                && free == seq(numItems, i => i)
    {
      var requestedSize := numItems * (itemSize + SIZEOF_INT);
      if memorySize < requestedSize {
        return NotEnoughMemory;
      }
      this.itemSize := itemSize;
      size := numItems;
      bufferSize := itemSize * numItems;
      sizeMax := numItems;
      freeList := new int[numItems];
      for i := 0 to size - 1
        invariant size == numItems && fresh(freeList) && freeList.Length == numItems
        invariant this.itemSize == itemSize && sizeMax == numItems && bufferSize == itemSize * numItems
        invariant forall j :: 0 <= j < i ==> freeList[j] == j + 1
      {
        freeList[i] := i + 1;
      }
      freeList[size - 1] := NULL_IDX;
      firstIdx := 0;
      free := seq(numItems, i => i);
      assert forall b :: 0 <= b < numItems ==> free[b] == b && b in free;
      r := Success;
    }

    /** The offset of the block handed out, or -1 for the null pointer. */
    method GetBlock() returns (offset: int)
      requires Valid()
      modifies this, freeList
      ensures Valid() && freeList == old(freeList)
      ensures itemSize == old(itemSize) && sizeMax == old(sizeMax)
      ensures old(free) == [] ==> offset == -1 && free == []
      ensures old(free) != [] ==> offset == old(free)[0] * itemSize && free == old(free)[1..]
      ensures old(free) != [] ==> 0 <= offset && CDiv(offset, itemSize) == old(free)[0]
    {
      if firstIdx == NULL_IDX {
        return -1;
      }
      var detachedIdx := firstIdx;
      ghost var links, rest := freeList[..], free[1..];
      PopRepresents(links, firstIdx, free);
      firstIdx := freeList[firstIdx];
      size := size - 1;
      freeList[detachedIdx] := DETACHED_IDX;
      assert freeList[..] == links[detachedIdx := DETACHED_IDX];
      free := rest;
      BlockOffset(detachedIdx, itemSize);
      offset := detachedIdx * itemSize;
    }

    /** `offset` is the freed address relative to the start of the memory area, of either sign. */
    method ReleaseBlock(offset: int) returns (r: PoolResult)
      requires Valid()
      modifies this, freeList
      ensures Valid() && freeList == old(freeList)
      ensures itemSize == old(itemSize) && sizeMax == old(sizeMax)
      ensures r == Success <==> exists b :: b !in old(free) && IsBlockAt(b, offset)
      ensures r == Success ==> free == [CDiv(offset, itemSize)] + old(free)
      ensures r != Success ==> unchanged(this) && freeList[..] == old(freeList[..])
      ensures r == UnalignedFree <==> !exists b :: offset == b * itemSize
      ensures r == OutOfRange <==> exists b :: offset == b * itemSize && !(0 <= b < sizeMax)
      ensures r == DoubleFree <==> exists b :: b in old(free) && IsBlockAt(b, offset)
    {
      if CMod(offset, itemSize) != 0 {
        AlignedIsMultiple(offset, itemSize);
        return UnalignedFree;
      }
      var idx := CDiv(offset, itemSize);
      assert offset == idx * itemSize;
      assert forall b :: offset == b * itemSize ==> b == idx by {
        forall b | offset == b * itemSize ensures b == idx { BlockOffset(b, itemSize); }
      }
      if idx < 0 || idx >= sizeMax {
        return OutOfRange;
      }
      FreeIffNotDetached(freeList[..], firstIdx, free, idx);
      assert IsBlockAt(idx, offset);
      if freeList[idx] != DETACHED_IDX {
        return DoubleFree;
      }
      PushRepresents(freeList[..], firstIdx, free, idx);
      ghost var links := freeList[..];
      freeList[idx] := firstIdx;
      assert freeList[..] == links[idx := firstIdx];
      firstIdx := idx;
      size := size + 1;
      free := [idx] + free;
      r := Success;
    }

    /** What a cast of the block address yields: the number of the block, or -1 for null. */
    method Alloc() returns (b: int)
      requires Valid()
      modifies this, freeList
      ensures Valid() && freeList == old(freeList) && sizeMax == old(sizeMax)
      ensures old(free) == [] ==> b == -1 && free == []
      ensures old(free) != [] ==> 0 <= b < sizeMax && b == old(free)[0] && b !in free && free == old(free)[1..]
    {
      assert free != [] ==> LinkedAt(freeList[..], free, 0);
      assert forall i :: 0 < i < |free| ==> free[i] != free[0];
      var offset := GetBlock();
      if offset == -1 {
        return -1;
      }
      b := CDiv(offset, itemSize);
    }

    /** Releases a block that is in use. */
    method Free(b: nat) returns (r: PoolResult)
      requires Valid() && b < sizeMax && b !in free
      modifies this, freeList
      ensures Valid() && freeList == old(freeList) && sizeMax == old(sizeMax)
      ensures r == Success && free == [b] + old(free)
    {
      BlockOffset(b, itemSize);
      assert IsBlockAt(b, b * itemSize);
      r := ReleaseBlock(b * itemSize);
    }

    ghost predicate IsBlockAt(b: int, offset: int)
      reads this
    {
      0 <= b < sizeMax && offset == b * itemSize
    }
  }
}
