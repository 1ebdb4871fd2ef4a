/** Semaphores and their descriptors, and the four semaphore handlers.
    A semaphore descriptor and its descriptor pointer are taken and given back together, so one index stands
    for both. */
module Semaphores {
  import opened Bags
  import opened Timers
  import opened Processes

  const ESEMOPEN := -14
  const ESEMCLOSE := -15
  const ESEMPOST := -16
  const ESEMWAIT := -17
  const MAX_NUM_SEMAPHORES := 1024
  const MAX_NUM_SEMDESCRIPTORS_PER_PROCESS := 32

  datatype SemDesc = SemDesc(owner: Block, sem: Block, fd: int)

  /** What happened to a semaphore since its creation: how often wait was completed and post called, who
      blocked and who was woken, in order, and who has completed more waits than posts. */
  datatype SemHistory = SemHistory(initial: int, waits: nat, posts: nat, blocked: seq<Block>, woken: seq<Block>,
                                   holders: multiset<Block>)

  const NO_HISTORY := SemHistory(0, 0, 0, [], [], multiset{})

  type IntTable = t: seq<int> | |t| == MAX_NUM_PROCESSES witness seq(MAX_NUM_PROCESSES, _ => 0)
  type DescTable = t: seq<SemDesc> | |t| == MAX_NUM_PROCESSES witness seq(MAX_NUM_PROCESSES, _ => SemDesc(0, 0, 0))
  type HistoryTable = t: seq<SemHistory> | |t| == MAX_NUM_PROCESSES witness seq(MAX_NUM_PROCESSES, _ => NO_HISTORY)

  /** ids, counts, attached, waiters and history are indexed by semaphore block, descs by descriptor
      block, owned and lastFd by PCB block. attached and waiters are the semaphore's two lists. */
  datatype Sems = Sems(
    semList: seq<Block>, freeSems: seq<Block>,
    ids: IntTable, counts: IntTable, attached: ListTable, waiters: ListTable, history: HistoryTable,
    descs: DescTable, freeDescs: seq<Block>, owned: ListTable, lastFd: IntTable)

  datatype Kern = Kern(p: Proc, x: Sems)

  function Fail(k: Kern, error: int): Kern
    requires k.p.running.Ref?
  {
    k.(p := Return(k.p, error))
  }

  /** SemDescriptorList_byFd: the first descriptor with that fd. */
  function ByFd(x: Sems, ds: seq<Block>, fd: int): BlockRef {
    if ds == [] then Null
    else if x.descs[ds[0]].fd == fd then Ref(ds[0])
    else ByFd(x, ds[1..], fd)
  }

  /** SemaphoreList_byId */
  function ById(x: Sems, sems: seq<Block>, id: int): BlockRef {
    if sems == [] then Null
    else if x.ids[sems[0]] == id then Ref(sems[0])
    else ById(x, sems[1..], id)
  }

  /** The descriptor a call with this fd is about; the bound check lets 32 through. */
  function Lookup(k: Kern, fd: int): BlockRef
    requires k.p.running.Ref?
  {
    if fd < 0 || fd > MAX_NUM_SEMDESCRIPTORS_PER_PROCESS then Null
    else ByFd(k.x, k.x.owned[k.p.running.p], fd)
  }

  predicate WouldBlock(k: Kern, fd: int)
    requires k.p.running.Ref?
  {
    var d := Lookup(k, fd);
    d.Ref? && k.x.counts[k.x.descs[d.p].sem] <= 0
  }

  /** internal_semWait; when it blocks, some process must be ready. */
  function SemWait(k: Kern, fd: int): Kern
    requires k.p.running.Ref? && (WouldBlock(k, fd) ==> k.p.ready != [])
  {
    var r, d := k.p.running.p, Lookup(k, fd);
    if d.Null? then Fail(k, ESEMWAIT)
    else
      var sem := k.x.descs[d.p].sem;
      if k.x.counts[sem] > 0 then Kern(Return(k.p, 0), Acquire(k.x, sem, r))
      else Kern(BlockOnSemaphore(k.p), Enqueue(k.x, sem, d.p))
  }

  function Acquire(x: Sems, sem: Block, r: Block): Sems {
    var h := x.history[sem];
    x.(counts := x.counts[sem := x.counts[sem] - 1],
       history := x.history[sem := h.(waits := h.waits + 1, holders := h.holders + multiset{r})])
  }

  function Enqueue(x: Sems, sem: Block, d: Block): Sems {
    var h := x.history[sem];
    x.(attached := x.attached[sem := Remove(x.attached[sem], d)],
       waiters := x.waiters[sem := x.waiters[sem] + [d]],
       history := x.history[sem := h.(blocked := h.blocked + [x.descs[d].owner])])
  }

  /** internal_semPost: the count goes up, and down again for the waiter it wakes, if any. A post that
      wakes someone leaves the caller's return value alone. */
  function SemPost(k: Kern, fd: int): Kern
    requires k.p.running.Ref?
  {
    var r, d := k.p.running.p, Lookup(k, fd);
    if d.Null? then Fail(k, ESEMPOST)
    else
      var sem := k.x.descs[d.p].sem;
      var x := Release(k.x, sem, r);
      if x.counts[sem] > 0 && x.waiters[sem] != []
      then Kern(WakeFromSemaphore(k.p, x.descs[x.waiters[sem][0]].owner), Dequeue(x, sem))
      else Kern(Return(k.p, 0), x)
  }

  function Release(x: Sems, sem: Block, r: Block): Sems {
    var h := x.history[sem];
    x.(counts := x.counts[sem := x.counts[sem] + 1],
       history := x.history[sem := h.(posts := h.posts + 1, holders := h.holders - multiset{r})])
  }

  function Dequeue(x: Sems, sem: Block): Sems
    requires x.waiters[sem] != []
  {
    var d, h := x.waiters[sem][0], x.history[sem];
    var q := x.descs[d].owner;
    x.(counts := x.counts[sem := x.counts[sem] - 1],
       waiters := x.waiters[sem := x.waiters[sem][1..]],
       attached := x.attached[sem := x.attached[sem] + [d]],
       history := x.history[sem := h.(waits := h.waits + 1, woken := h.woken + [q],
                                      holders := h.holders + multiset{q})])
  }

  /** The count argument goes through unsigned int and then int. */
  function InitialCount(count: int): int {
    var u := count % 0x1_0000_0000;
    if u < 0x8000_0000 then u else u - 0x1_0000_0000
  }

  /** This call creates a semaphore, rather than opening or failing early. */
  predicate Creates(k: Kern, id: int, flags: int)
    requires k.p.running.Ref?
  {
    && k.x.lastFd[k.p.running.p] + 1 <= MAX_NUM_SEMDESCRIPTORS_PER_PROCESS && id >= 0
    && CreateSet(flags) && ById(k.x, k.x.semList, id).Null?
    && |k.x.semList| + 1 <= MAX_NUM_SEMAPHORES && k.x.freeSems != []
  }

  /** internal_semOpen. On a failed descriptor allocation a semaphore just created stays in the list. */
  function SemOpen(k: Kern, id: int, flags: int, count: int): Kern
    requires k.p.running.Ref?
  {
    var r := k.p.running.p;
    var found := ById(k.x, k.x.semList, id);
    if k.x.lastFd[r] + 1 > MAX_NUM_SEMDESCRIPTORS_PER_PROCESS || id < 0 then Fail(k, ESEMOPEN)
    else if CreateSet(flags) && found.Ref? && ExclSet(flags) then Fail(k, ESEMOPEN)
    else if Creates(k, id, flags) then Attach(k.(x := Create(k.x, id, InitialCount(count))), k.x.freeSems[0])
    else if found.Null? then Fail(k, ESEMOPEN)
    else Attach(k, found.p)
  }

  /** Semaphore_alloc initialises the descriptor list only, not the list of waiters. */
  function Create(x: Sems, id: int, count: int): Sems
    requires x.freeSems != []
  {
    var sem := x.freeSems[0];
    x.(freeSems := x.freeSems[1..], semList := x.semList + [sem],
       ids := x.ids[sem := id], counts := x.counts[sem := count], attached := x.attached[sem := []],
       history := x.history[sem := NO_HISTORY.(initial := count)])
  }

  function Attach(k: Kern, sem: Block): Kern
    requires k.p.running.Ref?
  {
    var x, r := k.x, k.p.running.p;
    if x.freeDescs == [] then Fail(k, ESEMOPEN)
    else
      var d, fd := x.freeDescs[0], x.lastFd[r];
      Kern(Return(k.p, fd),
           x.(freeDescs := x.freeDescs[1..], descs := x.descs[d := SemDesc(r, sem, fd)],
              owned := x.owned[r := x.owned[r] + [d]], attached := x.attached[sem := x.attached[sem] + [d]],
              lastFd := x.lastFd[r := fd + 1]))
  }

  /** internal_semClose: the semaphore goes with its last descriptor, whoever may be waiting. */
  function SemClose(k: Kern, fd: int): Kern
    requires k.p.running.Ref?
  {
    var r, d := k.p.running.p, Lookup(k, fd);
    if d.Null? then Fail(k, ESEMCLOSE)
    else
      var x := Detach(k.x, r, d.p);
      var sem := x.descs[d.p].sem;
      Kern(Return(k.p, 0), if x.attached[sem] == [] then Destroy(x, sem) else x)
  }

  function Detach(x: Sems, r: Block, d: Block): Sems {
    var sem := x.descs[d].sem;
    x.(owned := x.owned[r := Remove(x.owned[r], d)], attached := x.attached[sem := Remove(x.attached[sem], d)],
       freeDescs := [d] + x.freeDescs, lastFd := x.lastFd[r := x.lastFd[r] - 1])
  }

  function Destroy(x: Sems, sem: Block): Sems {
    x.(semList := Remove(x.semList, sem), freeSems := [sem] + x.freeSems)
  }
}
