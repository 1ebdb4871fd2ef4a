/** Resources: the state behind disastrOS_resource.c and disastrOS_descriptor.c, and what opening, closing and
    destroying make of it. Descriptors and descriptor pointers come from two pools, and point at each other. */
module Resources {
  import opened Bags
  import opened Timers
  import opened Processes

  const ERESOURCECREATE := -8
  const ERESOURCEOPEN := -9
  const ERESOURCENOEXCL := -10
  const ERESOURCENOFD := -11
  const ERESOURCECLOSE := -12
  const ERESOURCEINUSE := -13

  /** A Descriptor block, and a DescriptorPtr block; pointers are block indices. */
  datatype Desc = Desc(owner: Block, resource: Block, fd: int, ptr: Block)

  type DescTable = t: seq<Desc> | |t| == MAX_NUM_PROCESSES witness seq(MAX_NUM_PROCESSES, _ => Desc(0, 0, 0, 0))
  type PtrTable = t: seq<Block> | |t| == MAX_NUM_PROCESSES witness seq(MAX_NUM_PROCESSES, _ => 0)
  type IntTable = t: seq<int> | |t| == MAX_NUM_PROCESSES witness seq(MAX_NUM_PROCESSES, _ => 0)

  /** ids, types and ptrsOf, the descriptors of a resource, are indexed by resource block, of which there are
      as many as PCB blocks; owned and lastFd by PCB block; pointee says which descriptor a pointer is for. */
  datatype Registry = Registry(
    resList: seq<Block>, freeRes: seq<Block>, ids: IntTable, types: IntTable, ptrsOf: ListTable,
    descs: DescTable, freeDescs: seq<Block>, pointee: PtrTable, freePtrs: seq<Block>,
    owned: ListTable, lastFd: IntTable)

  /** ResourceList_byId, DescriptorList_byFd: the first that matches. */
  function ById(s: Registry, rs: seq<Block>, id: int): BlockRef {
    if rs == [] then Null
    else if s.ids[rs[0]] == id then Ref(rs[0])
    else ById(s, rs[1..], id)
  }

  function ByFd(s: Registry, ds: seq<Block>, fd: int): BlockRef {
    if ds == [] then Null
    else if s.descs[ds[0]].fd == fd then Ref(ds[0])
    else ByFd(s, ds[1..], fd)
  }

  /** Creating dereferences the new resource, and opening the new descriptor pointer, without a check. */
  predicate CanCreate(s: Registry, id: int, mode: int) {
    CreateSet(mode) && ById(s, s.resList, id).Null? ==> s.freeRes != []
  }

  function Open(s: Registry, p: Block, id: int, kind: int, mode: int): (Registry, int)
    requires CanCreate(s, id, mode) && (s.freeDescs != [] ==> s.freePtrs != [])
  {
    var found := ById(s, s.resList, id);
    if CreateSet(mode) && found.Ref? then (s, ERESOURCECREATE)
    else if CreateSet(mode) then OpenFound(NewResource(s, id, kind), p, s.freeRes[0], kind, mode)
    else if found.Null? then (s, ERESOURCEOPEN)
    else OpenFound(s, p, found.p, kind, mode)
  }

  /** Resource_alloc, and the insertion. */
  function NewResource(s: Registry, id: int, kind: int): Registry
    requires s.freeRes != []
  {
    var r := s.freeRes[0];
    s.(freeRes := s.freeRes[1..], ids := s.ids[r := id], types := s.types[r := kind], ptrsOf := s.ptrsOf[r := []],
       resList := s.resList + [r])
  }

  function OpenFound(s: Registry, p: Block, r: Block, kind: int, mode: int): (Registry, int)
    requires s.freeDescs != [] ==> s.freePtrs != []
  {
    if s.types[r] != kind then (s, ERESOURCEOPEN)
    else if ExclSet(mode) && s.ptrsOf[r] != [] then (s, ERESOURCENOEXCL)
    else if s.freeDescs == [] then (s, ERESOURCENOFD)
    else (Attach(s, p, r), s.lastFd[p])
  }

  function Attach(s: Registry, p: Block, r: Block): Registry
    requires s.freeDescs != [] && s.freePtrs != []
  {
    var d, x := s.freeDescs[0], s.freePtrs[0];
    s.(freeDescs := s.freeDescs[1..], descs := s.descs[d := Desc(p, r, s.lastFd[p], x)],
       owned := s.owned[p := s.owned[p] + [d]],
       freePtrs := s.freePtrs[1..], pointee := s.pointee[x := d], ptrsOf := s.ptrsOf[r := s.ptrsOf[r] + [x]],
       lastFd := s.lastFd[p := s.lastFd[p] + 1])
  }

  function Close(s: Registry, p: Block, fd: int): (Registry, int) {
    var d := ByFd(s, s.owned[p], fd);
    if d.Null? then (s, ERESOURCECLOSE) else (Detach(s, p, d.p), 0)
  }

  function Detach(s: Registry, p: Block, d: Block): Registry {
    var r, x := s.descs[d].resource, s.descs[d].ptr;
    s.(owned := s.owned[p := Remove(s.owned[p], d)], ptrsOf := s.ptrsOf[r := Remove(s.ptrsOf[r], x)],
       freeDescs := [d] + s.freeDescs, freePtrs := [x] + s.freePtrs)
  }

  function Destroy(s: Registry, id: int): (Registry, int) {
    var r := ById(s, s.resList, id);
    if r.Null? then (s, ERESOURCECLOSE)
    else if s.ptrsOf[r.p] != [] then (s, ERESOURCEINUSE)
    else (s.(resList := Remove(s.resList, r.p), freeRes := [r.p] + s.freeRes), 0)
  }

  /** The release loop of exit, when a process hands over to its parent. */
  function ReleaseAll(s: Registry, p: Block): Registry
    decreases |s.owned[p]|
  {
    if s.owned[p] == [] then s
    else
      assert Remove(s.owned[p], s.owned[p][0]) == s.owned[p][1..];
      ReleaseAll(Detach(s, p, s.owned[p][0]), p)
  }

  /** PCB_alloc starts a process without descriptors, whatever the block's last owner left open. */
  function NewProcess(s: Registry, p: Block): Registry {
    s.(owned := s.owned[p := []], lastFd := s.lastFd[p := 0])
  }
}
