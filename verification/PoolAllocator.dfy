/** pool_allocator.c: blocks of one size, the free ones chained through an int array.
    A pool value is what the C struct records; `free` is the chain it stands for, top first. */
module PoolAllocators {
  import opened Bags

  const NULL_IDX := -1
  const DETACHED_IDX := -2
  const SIZEOF_INT := 4

  datatype PoolResult = Success | NotEnoughMemory | UnalignedFree | OutOfRange | DoubleFree

  datatype Pool = Pool(freeList: seq<int>, firstIdx: int, size: int)

  /** `free` is the whole chain from firstIdx to -1; it visits exactly the slots not marked -2, none twice. */
  ghost predicate FreeChain(p: Pool, free: seq<int>) {
    && p.size == |free|
    && p.firstIdx == (if free == [] then NULL_IDX else free[0])
    && (forall k :: 0 <= k < |free| ==> 0 <= free[k] < |p.freeList|)
    && (forall k :: 0 <= k < |free| ==> p.freeList[free[k]] == Successor(free, k))
    && NoDuplicates(free)
    && (forall i :: 0 <= i < |p.freeList| ==> (i in free <==> p.freeList[i] != DETACHED_IDX))
  }

  /** What the slot of the k-th free block holds. */
  ghost function Successor(free: seq<int>, k: int): int
    requires 0 <= k < |free|
  {
    if k + 1 < |free| then free[k + 1] else NULL_IDX
  }

  predicate Available(p: Pool) {
    0 <= p.firstIdx < |p.freeList|
  }

  predicate Live(p: Pool, i: int) {
    0 <= i < |p.freeList| && p.freeList[i] == DETACHED_IDX
  }

  /** Taking the top block off the chain. */
  function Get(p: Pool): Pool
    requires Available(p)
  {
    Pool(p.freeList[p.firstIdx := DETACHED_IDX], p.freeList[p.firstIdx], p.size - 1)
  }

  /** Pushing a live block on the chain. */
  function Release(p: Pool, i: int): Pool
    requires Live(p, i)
  {
    Pool(p.freeList[i := p.firstIdx], i, p.size + 1)
  }

  lemma GetPopsChain(p: Pool, free: seq<int>)
    requires FreeChain(p, free) && free != []
    ensures Available(p) && p.firstIdx == free[0]
    ensures FreeChain(Get(p), free[1..])
    ensures Live(Get(p), free[0])
  {
    var p', rest := Get(p), free[1..];
    forall k | 0 <= k < |rest|
      ensures p'.freeList[rest[k]] == Successor(rest, k)
    {
      assert rest[k] == free[k + 1] && free[0] != free[k + 1];
      assert Successor(rest, k) == Successor(free, k + 1);
    }
    assert p.freeList[free[0]] == Successor(free, 0);
    forall i | 0 <= i < |p.freeList|
      ensures i in rest <==> p'.freeList[i] != DETACHED_IDX
    {
      assert i in free <==> i == free[0] || i in rest;
    }
  }

  lemma ReleasePushesChain(p: Pool, free: seq<int>, i: int)
    requires FreeChain(p, free) && Live(p, i)
    ensures FreeChain(Release(p, i), [i] + free)
  {
    var free', p' := [i] + free, Release(p, i);
    assert i !in free;
    forall k | 0 <= k < |free'|
      ensures p'.freeList[free'[k]] == Successor(free', k)
    {
      if k > 0 {
        assert free'[k] == free[k - 1];
        assert Successor(free', k) == Successor(free, k - 1);
      }
    }
    forall j, k | 0 <= j < k < |free'|
      ensures free'[j] != free'[k]
    {
      assert free'[k] == free[k - 1];
    }
    forall j | 0 <= j < |p'.freeList|
      ensures j in free' <==> p'.freeList[j] != DETACHED_IDX
    {
    }
  }

  lemma {:induction false} ChainsAgree(p: Pool, f: seq<int>, g: seq<int>, k: nat)
    requires FreeChain(p, f) && FreeChain(p, g) && k < |f|
    ensures f[k] == g[k]
  {
    if k > 0 {
      ChainsAgree(p, f, g, k - 1);
      assert Successor(f, k - 1) == p.freeList[f[k - 1]] == Successor(g, k - 1);
    }
  }

  /** The chain is a function of the struct: there is only one it can stand for. */
  lemma ChainUnique(p: Pool, f: seq<int>, g: seq<int>)
    requires FreeChain(p, f) && FreeChain(p, g)
    ensures f == g
  {
    forall k | 0 <= k < |f|
      ensures f[k] == g[k]
    {
      ChainsAgree(p, f, g, k);
    }
  }

  /** A pool with nothing free is exactly a pool whose blocks are all live. */
  lemma ExhaustedIffAllLive(p: Pool, free: seq<int>)
    requires FreeChain(p, free)
    ensures !Available(p) <==> forall i :: 0 <= i < |p.freeList| ==> Live(p, i)
  {
    if free != [] {
      assert free[0] in free;
      assert !Live(p, free[0]);
    }
  }

  lemma GetThenRelease(p: Pool)
    requires Available(p) && p.freeList[p.firstIdx] != DETACHED_IDX
    ensures Live(Get(p), p.firstIdx)
    ensures Release(Get(p), p.firstIdx) == p
  {
    assert p.freeList[p.firstIdx := DETACHED_IDX][p.firstIdx := p.freeList[p.firstIdx]] == p.freeList;
  }

  lemma ReleaseThenGet(p: Pool, i: int)
    requires Live(p, i)
    ensures Available(Release(p, i)) && Release(p, i).firstIdx == i
    ensures Get(Release(p, i)) == p
  {
    assert p.freeList[i := p.firstIdx][i := DETACHED_IDX] == p.freeList;
  }

  /** Well-nested use: every block taken is given back, and every block given back is taken again,
      with a well-nested script in between. */
  datatype Script =
    | Nothing
    | TakeAndGive(inner: Script, rest: Script)
    | GiveAndTake(block: int, inner: Script, rest: Script)

  /** The script can be carried out from p: each get finds a block, each release names a live one. */
  ghost predicate Feasible(p: Pool, s: Script)
    decreases s, 0
  {
    match s
    case Nothing => true
    case TakeAndGive(inner, rest) =>
      && Available(p)
      && Feasible(Get(p), inner)
      && Live(Play(Get(p), inner), p.firstIdx)
      && Feasible(Release(Play(Get(p), inner), p.firstIdx), rest)
    case GiveAndTake(i, inner, rest) =>
      && Live(p, i)
      && Feasible(Release(p, i), inner)
      && Available(Play(Release(p, i), inner))
      && Feasible(Get(Play(Release(p, i), inner)), rest)
  }

  ghost function Play(p: Pool, s: Script): Pool
    requires Feasible(p, s)
    decreases s, 1
  {
    match s
    case Nothing => p
    case TakeAndGive(inner, rest) => Play(Release(Play(Get(p), inner), p.firstIdx), rest)
    case GiveAndTake(i, inner, rest) => Play(Get(Play(Release(p, i), inner)), rest)
  }

  /** A well-nested script leaves the free list, the first index and the size exactly as they were. */
  lemma {:induction false} WellNestedRestores(p: Pool, free: seq<int>, s: Script)
    requires FreeChain(p, free) && Feasible(p, s)
    ensures Play(p, s) == p
    decreases s
  {
    match s
    case Nothing =>
    case TakeAndGive(inner, rest) =>
      assert free != [];
      GetPopsChain(p, free);
      WellNestedRestores(Get(p), free[1..], inner);
      GetThenRelease(p);
      WellNestedRestores(p, free, rest);
    case GiveAndTake(i, inner, rest) =>
      ReleasePushesChain(p, free, i);
      WellNestedRestores(Release(p, i), [i] + free, inner);
      ReleaseThenGet(p, i);
      WellNestedRestores(p, free, rest);
  }

  /** What makes a script feasible is decided at its first steps only: taking needs a free block,
      giving needs a live one; the matching step is then always possible. */
  lemma {:induction false} MatchingStepAlwaysPossible(p: Pool, free: seq<int>, s: Script)
    requires FreeChain(p, free)
    ensures s.TakeAndGive? ==>
              (Feasible(p, s) <==> free != [] && Feasible(Get(p), s.inner) && Feasible(p, s.rest))
    ensures s.GiveAndTake? ==>
              (Feasible(p, s) <==> Live(p, s.block) && Feasible(Release(p, s.block), s.inner) && Feasible(p, s.rest))
  {
    match s
    case Nothing =>
    case TakeAndGive(inner, rest) =>
      if free != [] {
        GetPopsChain(p, free);
        GetThenRelease(p);
        if Feasible(Get(p), inner) {
          WellNestedRestores(Get(p), free[1..], inner);
        }
      }
    case GiveAndTake(i, inner, rest) =>
      if Live(p, i) {
        ReleasePushesChain(p, free, i);
        ReleaseThenGet(p, i);
        if Feasible(Release(p, i), inner) {
          WellNestedRestores(Release(p, i), [i] + free, inner);
        }
      }
  }

  /** The address of block i, and the way back from an address. */
  function AddressOf(buffer: int, itemSize: int, i: int): int {
    buffer + i * itemSize
  }

  predicate Aligned(buffer: int, itemSize: int, block: int)
    requires itemSize > 0
  {
    (block - buffer) % itemSize == 0
  }

  function IndexOf(buffer: int, itemSize: int, block: int): int
    requires itemSize > 0
  {
    (block - buffer) / itemSize
  }

  /** Aligned addresses and block indices correspond one to one. */
  lemma AddressRoundTrip(buffer: int, itemSize: int, block: int, i: int)
    requires itemSize > 0
    ensures block == AddressOf(buffer, itemSize, i) <==>
            Aligned(buffer, itemSize, block) && IndexOf(buffer, itemSize, block) == i
  {
    if block == AddressOf(buffer, itemSize, i) {
      assert block - buffer == i * itemSize;
      MultipleDivides(i, itemSize);
    }
  }

  lemma AddressNotNull(buffer: int, itemSize: int, i: int)
    requires buffer > 0 && itemSize > 0 && i >= 0
    ensures AddressOf(buffer, itemSize, i) > 0
  {
  }

  /** The allocator itself. Addresses are integers, 0 is the null pointer. */
  class PoolAllocator {
    var buffer: int
    var freeList: array<int>
    var bufferSize: int
    var size: int
    var sizeMax: int
    var itemSize: int
    var firstIdx: int
    ghost var free: seq<int>

    ghost predicate Valid()
      reads this, freeList
    {
      && 0 < buffer && 0 < itemSize
      && freeList.Length == sizeMax
      && bufferSize == itemSize * sizeMax
      && FreeChain(State(), free)
    }

    ghost function State(): Pool
      reads this, freeList
    {
      Pool(freeList[..], firstIdx, size)
    }

    constructor ()
      ensures fresh(freeList) && freeList.Length == 0
    {
      freeList := new int[0];
    }

    method Init(itemSize: int, numItems: int, memoryBlock: int, memorySize: int) returns (r: PoolResult)
      requires 0 < itemSize && 0 < numItems && 0 < memoryBlock
      modifies this
      ensures r == if memorySize < numItems * (itemSize + SIZEOF_INT) then NotEnoughMemory else Success
      ensures r == NotEnoughMemory ==> unchanged(this)
      ensures r == Success ==> Valid() && fresh(freeList)
      ensures r == Success ==> buffer == memoryBlock && this.itemSize == itemSize && sizeMax == numItems
      ensures r == Success ==> free == seq(numItems, i => i)
    {
      var requestedSize := numItems * (itemSize + SIZEOF_INT);
      if memorySize < requestedSize {
        return NotEnoughMemory;
      }
      this.itemSize := itemSize;
      size := numItems;
      bufferSize := itemSize * numItems;
      sizeMax := numItems;
      buffer := memoryBlock;
      freeList := new int[numItems];
      var i := 0;
      while i < size - 1
        invariant 0 <= i <= size - 1 && size == numItems && freeList.Length == numItems && fresh(freeList)
        invariant forall k :: 0 <= k < i ==> freeList[k] == k + 1
        invariant buffer == memoryBlock && this.itemSize == itemSize && sizeMax == numItems
        invariant bufferSize == itemSize * numItems
        modifies freeList
      {
        freeList[i] := i + 1;
        i := i + 1;
      }
      freeList[size - 1] := NULL_IDX;
      firstIdx := 0;
      free := seq(numItems, i => i);
      forall i | 0 <= i < numItems
        ensures i in free
      {
        assert free[i] == i;
      }
      return Success;
    }

    /** Returns the top of the chain, or null when (and only when) no block is free. */
    method GetBlock() returns (block: int)
      requires Valid()
      modifies this, freeList
      ensures Valid() && unchanged(`buffer, `freeList, `bufferSize, `sizeMax, `itemSize)
      ensures block == 0 <==> old(free) == []
      ensures block == 0 ==> free == old(free) && State() == old(State())
      ensures block != 0 ==> free == old(free)[1..] && block == AddressOf(buffer, itemSize, old(free)[0])
      ensures block != 0 ==> old(Available(State())) && State() == Get(old(State()))
    {
      if firstIdx == -1 {
        return 0;
      }
      ghost var before := State();
      GetPopsChain(before, free);
      var detachedIdx := firstIdx;
      firstIdx := freeList[firstIdx];
      size := size - 1;
      freeList[detachedIdx] := DETACHED_IDX;
      free := free[1..];
      assert State() == Get(before);
      AddressNotNull(buffer, itemSize, detachedIdx);
      return AddressOf(buffer, itemSize, detachedIdx);
    }

    /** Accepts exactly the addresses of live blocks; any other address is refused and changes nothing.
        C truncates where these / and % round down; on aligned offsets, and on whether a remainder is
        zero, the two agree. */
    method ReleaseBlock(block: int) returns (r: PoolResult)
      requires Valid()
      modifies this, freeList
      ensures Valid() && unchanged(`buffer, `freeList, `bufferSize, `sizeMax, `itemSize)
      ensures r == UnalignedFree <==> !Aligned(buffer, itemSize, block)
      ensures r == OutOfRange <==>
              Aligned(buffer, itemSize, block) && !(0 <= IndexOf(buffer, itemSize, block) < sizeMax)
      ensures r == DoubleFree <==>
              Aligned(buffer, itemSize, block) && IndexOf(buffer, itemSize, block) in old(free)
      ensures r == Success <==>
              Aligned(buffer, itemSize, block) && old(Live(State(), IndexOf(buffer, itemSize, block)))
      ensures r == Success ==>
                && free == [IndexOf(buffer, itemSize, block)] + old(free)
                && State() == Release(old(State()), IndexOf(buffer, itemSize, block))
      ensures r != Success ==> free == old(free) && State() == old(State())
    {
      if !Aligned(buffer, itemSize, block) {
        return UnalignedFree;
      }
      var idx := IndexOf(buffer, itemSize, block);
      if idx < 0 || idx >= sizeMax {
        return OutOfRange;
      }
      if freeList[idx] != DETACHED_IDX {
        return DoubleFree;
      }
      ghost var before := State();
      ReleasePushesChain(before, free, idx);
      freeList[idx] := firstIdx;
      firstIdx := idx;
      size := size + 1;
      free := [idx] + free;
      assert State() == Release(before, idx);
      return Success;
    }
  }

  lemma MultipleDivides(i: int, d: int)
    requires d > 0
    ensures (i * d) % d == 0 && (i * d) / d == i
  {
    var q, r := (i * d) / d, (i * d) % d;
    assert i * d == q * d + r;
    if i > q { TimesMonotone(q + 1, i, d); }
    if i < q { TimesMonotone(i, q - 1, d); }
    assert (q + 1) * d == q * d + d && (q - 1) * d == q * d - d;
  }

  lemma TimesMonotone(a: int, b: int, d: int)
    requires a <= b && d > 0
    ensures a * d <= b * d
  {
  }
}
