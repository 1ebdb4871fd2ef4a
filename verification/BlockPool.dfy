/** A pool seen by block index: a stack of free blocks, of any capacity. The handlers take the head of such a
    stack and put blocks back on it; here that is shown to be what an allocator does. */
module BlockPools {
  import opened Bags
  import opened PoolAllocators

  class BlockPool {
    const capacity: nat
    const alloc: PoolAllocator

    ghost predicate Valid()
      reads alloc, alloc.freeList
    {
      alloc.Valid() && alloc.sizeMax == capacity
    }

    ghost function Free(): seq<int>
      requires Valid()
      reads alloc, alloc.freeList
    {
      alloc.free
    }

    /** The init functions of the buffers: everything free, in index order. */
    constructor (capacity: nat, itemSize: int, memory: int)
      requires 0 < capacity && 0 < itemSize && 0 < memory
      ensures Valid() && fresh(alloc) && fresh(alloc.freeList)
      ensures this.capacity == capacity && AllOf(Free(), 0, capacity)
    {
      var a := new PoolAllocator();
      var r := a.Init(itemSize, capacity, memory, capacity * (itemSize + SIZEOF_INT));
      this.capacity := capacity;
      alloc := a;
    }

    /** The alloc functions: the first free block, null when there is none. */
    method Take() returns (b: Option<int>)
      requires Valid()
      modifies alloc, alloc.freeList
      ensures Valid() && alloc.freeList == old(alloc.freeList)
      ensures old(Free()) == [] ==> b == None && Free() == []
      ensures old(Free()) != [] ==> b == Some(old(Free())[0]) && 0 <= b.value < capacity && Free() == old(Free())[1..]
    {
      ghost var free := alloc.free;
      var block := alloc.GetBlock();
      if block == 0 {
        return None;
      }
      AddressRoundTrip(alloc.buffer, alloc.itemSize, block, free[0]);
      return Some(IndexOf(alloc.buffer, alloc.itemSize, block));
    }

    /** The free functions: Success for a block in use, DoubleFree for a free one. */
    method Give(p: int) returns (r: PoolResult)
      requires Valid() && 0 <= p < capacity
      modifies alloc, alloc.freeList
      ensures Valid() && alloc.freeList == old(alloc.freeList)
      ensures p in old(Free()) ==> r == DoubleFree && Free() == old(Free())
      ensures p !in old(Free()) ==> r == Success && Free() == GiveBlock(old(Free()), p)
    {
      AddressRoundTrip(alloc.buffer, alloc.itemSize, AddressOf(alloc.buffer, alloc.itemSize, p), p);
      r := alloc.ReleaseBlock(AddressOf(alloc.buffer, alloc.itemSize, p));
    }
  }
}
