/** The kernel as a state machine over system calls and timer interrupts, and what holds after any run. */
module KernelRuns {
  import opened Bags
  import opened Timers
  import opened Processes
  import opened ProcessLaws
  import opened ProcessSteps
  import opened ProcessExits
  import opened Families
  import opened Scheduling
  import opened Semaphores
  import opened SemaphoreLaws

  datatype Step =
    | SpawnCall(f: int, arg: int)
    | ForkCall
    | SleepCall(cycles: int)
    | WaitCall(pid: int, result: int)
    | ExitCall(value: int)
    | SemOpenCall(id: int, flags: int, count: int)
    | SemCloseCall(fd: int)
    | SemWaitCall(fd: int)
    | SemPostCall(fd: int)
    | PreemptCall
    | Interrupt

  /** disastrOS_syscall: the running process records its call. Nothing reads a third argument later. */
  function RecordCall(k: Kern, step: Step): Kern
    requires k.p.running.Ref?
  {
    match step
    case SpawnCall(f, arg) => k.(p := Trap(k.p, CALL_SPAWN, [f, arg]))
    case ForkCall => k.(p := Trap(k.p, CALL_FORK, []))
    case SleepCall(cycles) => k.(p := Trap(k.p, CALL_SLEEP, [cycles]))
    case WaitCall(pid, result) => k.(p := Trap(k.p, CALL_WAIT, [pid, result]))
    case ExitCall(value) => k.(p := Trap(k.p, CALL_EXIT, [value]))
    case SemOpenCall(id, flags, _) => k.(p := Trap(k.p, CALL_SEMOPEN, [id, flags]))
    case SemCloseCall(fd) => k.(p := Trap(k.p, CALL_SEMCLOSE, [fd]))
    case SemWaitCall(fd) => k.(p := Trap(k.p, CALL_SEMWAIT, [fd]))
    case SemPostCall(fd) => k.(p := Trap(k.p, CALL_SEMPOST, [fd]))
    case PreemptCall => k.(p := Trap(k.p, CALL_PREEMPT, []))
    case Interrupt => k
  }

  /** Closing this descriptor does not take the semaphore away from processes blocked on it. */
  predicate CloseSafe(k: Kern, fd: int)
    requires k.p.running.Ref?
  {
    var d := Lookup(k, fd);
    d.Ref? ==> var m := k.x.descs[d.p].sem; Remove(k.x.attached[m], d.p) != [] || k.x.waiters[m] == []
  }

  /** What the handler of a recorded call needs: the pool blocks and ready processes it dereferences, and,
      for the theorems about runs, childless exits, counts that fit, and no semaphore destroyed under
      its waiters. */
  predicate Handles(k: Kern, step: Step)
    requires k.p.running.Ref?
  {
    match step
    case SpawnCall(_, _) => CanSpawn(k.p)
    case ForkCall => CanSpawn(k.p)
    case WaitCall(_, _) => WaitReturns(k.p) || k.p.ready != []
    case ExitCall(_) => CanExit(k.p) && k.p.children[k.p.running.p] == []
    case SemOpenCall(id, flags, count) => Creates(k, id, flags) ==> InitialCount(count) >= 0
    case SemCloseCall(fd) => CloseSafe(k, fd)
    case SemWaitCall(fd) => WouldBlock(k, fd) ==> k.p.ready != []
    case _ => true
  }

  predicate Enabled(k: Kern, step: Step) {
    k.p.running.Ref? && Handles(RecordCall(k, step), step)
  }

  /** PCB_alloc resets last_sem_fd, but not sem_descriptors. */
  function SpawnInKernel(k: Kern): Kern
    requires CanSpawn(k.p)
  {
    Kern(Spawn(k.p), k.x.(lastFd := k.x.lastFd[k.p.freePcbs[0] := 0]))
  }

  function Handle(k: Kern, step: Step): Kern
    requires k.p.running.Ref? && Handles(k, step)
  {
    match step
    case SpawnCall(_, _) => SpawnInKernel(k)
    case ForkCall => SpawnInKernel(k)
    case SleepCall(_) => k.(p := Sleep(k.p))
    case WaitCall(_, _) => k.(p := Wait(k.p))
    case ExitCall(_) => k.(p := Exit(k.p))
    case SemOpenCall(id, flags, count) => SemOpen(k, id, flags, count)
    case SemCloseCall(fd) => SemClose(k, fd)
    case SemWaitCall(fd) => SemWait(k, fd)
    case SemPostCall(fd) => SemPost(k, fd)
    case PreemptCall => k.(p := Schedule(k.p))
    case Interrupt => k.(p := Tick(k.p))
  }

  function Next(k: Kern, step: Step): Kern
    requires Enabled(k, step)
  {
    Handle(RecordCall(k, step), step)
  }

  ghost predicate KernInv(k: Kern) {
    Inv(k.p, WaiterBag(k.x)) && SemInv(k.x)
  }

  // ---- the semaphore handlers

  lemma RunningOffWaitLists(k: Kern)
    requires KernInv(k) && k.p.running.Ref?
    ensures k.p.running.p !in WaiterBag(k.x)
  {
    PlacesApart(k.p);
    NotWaiting(k.p, WaiterBag(k.x), k.p.running.p);
  }

  /** The descriptor a call looks up is the caller's, idle, and of a listed semaphore. */
  lemma LookupFacts(k: Kern, fd: int)
    requires KernInv(k) && k.p.running.Ref?
    ensures var d, r := Lookup(k, fd), k.p.running.p;
            d.Ref? ==> var m := k.x.descs[d.p].sem;
                       && d.p in k.x.owned[r] && k.x.descs[d.p].owner == r && m in k.x.semList && d.p in k.x.attached[m]
  {
    RunningOffWaitLists(k);
    ByFdMember(k.x, k.x.owned[k.p.running.p], fd);
    if Lookup(k, fd).Ref? {
      OwnedDescriptor(k.x, k.p.running.p, Lookup(k, fd).p);
    }
  }

  lemma BlockKeepsInv(s: Proc, sw: multiset<Block>)
    requires Inv(s, sw) && s.running.Ref? && s.ready != [] && s.pcbs[s.running.p].syscallNum == CALL_SEMWAIT
    ensures Inv(BlockOnSemaphore(s), sw + multiset{s.running.p})
  {
    hide Kin;
    hide Pids;
    hide ExitsAccounted;
    hide Placed;
    hide NoLostWakeup;
    var t, r := BlockOnSemaphore(s), s.running.p;
    PlacesApart(s);
    SwitchKeepsPlaces(s, t);
    IdentitiesKeep(s, t);
    SwitchKeepsStatuses(s, t);
    NotWaiting(s, sw, r);
    assert multiset(t.waiting) == multiset(s.waiting) + multiset{r};
    assert multiset(Pcbs(t.timers)) + (sw + multiset{r}) == (multiset(Pcbs(s.timers)) + sw) + multiset{r};
    JoinWaiters(s, t, sw, sw + multiset{r});
    BlockKeepsWakeups(s);
  }

  lemma BlockKeepsWakeups(s: Proc)
    requires NoLostWakeup(s) && s.running.Ref? && s.ready != [] && s.pcbs[s.running.p].syscallNum == CALL_SEMWAIT
    ensures NoLostWakeup(BlockOnSemaphore(s))
  {
    var t := BlockOnSemaphore(s);
    forall p, c | p in t.waiting && c in t.children[p] && c in t.zombies
      ensures !AwaitedBy(t, c, p)
    {
      if p != s.running.p { assert !AwaitedBy(s, c, p); }
    }
  }

  lemma WakeFromSemaphoreKeepsInv(s: Proc, sw: multiset<Block>, sw': multiset<Block>, q: Block)
    requires Inv(s, sw) && sw == sw' + multiset{q}
    ensures Inv(WakeFromSemaphore(s, q), sw') && q in s.waiting
  {
    var t := WakeFromSemaphore(s, q);
    assert multiset(Pcbs(s.timers)) + sw == (multiset(Pcbs(t.timers)) + sw') + multiset{q};
    CoverWithout(multiset(Pcbs(s.timers)) + sw, multiset(Pcbs(t.timers)) + sw', s.waiting, q);
    SemaphoreWaiterOnly(s, sw, q);
    WakeFromSemaphoreMoves(s, q);
    LeaveWaiters(s, t, sw, sw', q);
    LeavingKeepsWakeups(s, t, q);
    IdentitiesKeep(s, t);
  }

  lemma WakeFromSemaphoreMoves(s: Proc, q: Block)
    requires Placed(s) && Statuses(s) && TimersOk(s) && q in s.waiting && s.pcbs[q].status in {Running, Ready}
    ensures var t := WakeFromSemaphore(s, q); Placed(t) && Statuses(t) && TimersOk(t)
  {
    RemoveBag(s.waiting, q);
    assert PlaceBag(WakeFromSemaphore(s, q)) == PlaceBag(s);
  }

  lemma SemaphoreWaiterOnly(s: Proc, sw: multiset<Block>, q: Block)
    requires Placed(s) && Waiters(s, sw) && q in sw && q in s.waiting
    ensures s.pcbs[q].status in {Running, Ready} && s.pcbs[q].syscallNum == CALL_SEMWAIT && q !in Pcbs(s.timers)
  {
    OnePlace(s, q);
    InBag(Pcbs(s.timers), q);
    assert (multiset(Pcbs(s.timers)) + sw)[q] <= multiset(s.waiting)[q];
  }

  lemma FailKeepsInv(k: Kern, error: int)
    requires KernInv(k) && k.p.running.Ref?
    ensures KernInv(Fail(k, error))
  {
    ReturnKeepsInv(k.p, WaiterBag(k.x), error);
  }

  lemma SemWaitKeepsInv(k: Kern, fd: int)
    requires KernInv(k) && k.p.running.Ref? && k.p.pcbs[k.p.running.p].syscallNum == CALL_SEMWAIT
    requires WouldBlock(k, fd) ==> k.p.ready != []
    ensures KernInv(SemWait(k, fd))
  {
    hide Inv;
    var r, d := k.p.running.p, Lookup(k, fd);
    LookupFacts(k, fd);
    if d.Null? {
      FailKeepsInv(k, ESEMWAIT);
    } else {
      var m := k.x.descs[d.p].sem;
      assert Law(k.x, m);
      if k.x.counts[m] > 0 {
        AcquireKeeps(k.x, m, r);
        ReturnKeepsInv(k.p, WaiterBag(k.x), 0);
      } else {
        EnqueueKeeps(k.x, m, d.p);
        EnqueueKeepsBags(k.x, m, d.p);
        BlockKeepsInv(k.p, WaiterBag(k.x));
      }
    }
  }

  lemma SemPostKeepsInv(k: Kern, fd: int)
    requires KernInv(k) && k.p.running.Ref?
    ensures KernInv(SemPost(k, fd))
  {
    hide Inv;
    var r, d := k.p.running.p, Lookup(k, fd);
    LookupFacts(k, fd);
    if d.Null? {
      FailKeepsInv(k, ESEMPOST);
    } else {
      var m := k.x.descs[d.p].sem;
      var x := Release(k.x, m, r);
      assert Law(k.x, m);
      if k.x.waiters[m] != [] {
        var q := k.x.descs[k.x.waiters[m][0]].owner;
        DequeueKeeps(k.x, m, r);
        WakeFromSemaphoreKeepsInv(k.p, WaiterBag(k.x), WaiterBag(Dequeue(x, m)), q);
      } else {
        ReleaseKeeps(k.x, m, r);
        ReturnKeepsInv(k.p, WaiterBag(k.x), 0);
      }
    }
  }

  lemma AttachKeepsInv(k: Kern, m: Block)
    requires KernInv(k) && k.p.running.Ref? && m in k.x.semList
    ensures KernInv(Attach(k, m))
  {
    hide Inv;
    AttachKeeps(k, m);
    ReturnKeepsInv(k.p, WaiterBag(k.x), if k.x.freeDescs == [] then ESEMOPEN else k.x.lastFd[k.p.running.p]);
  }

  lemma SemOpenKeepsInv(k: Kern, id: int, flags: int, count: int)
    requires KernInv(k) && k.p.running.Ref? && (Creates(k, id, flags) ==> InitialCount(count) >= 0)
    ensures KernInv(SemOpen(k, id, flags, count))
  {
    hide Inv;
    hide SemInv;
    hide Attach;
    var found := ById(k.x, k.x.semList, id);
    FailKeepsInv(k, ESEMOPEN);
    ByIdMember(k.x, k.x.semList, id);
    if found.Ref? {
      AttachKeepsInv(k, found.p);
    } else if Creates(k, id, flags) {
      var c := k.(x := Create(k.x, id, InitialCount(count)));
      CreateKeeps(k.x, id, InitialCount(count));
      AttachKeepsInv(c, k.x.freeSems[0]);
    }
  }

  lemma SemCloseKeepsInv(k: Kern, fd: int)
    requires KernInv(k) && k.p.running.Ref? && CloseSafe(k, fd)
    ensures KernInv(SemClose(k, fd))
  {
    hide Inv;
    var r, d := k.p.running.p, Lookup(k, fd);
    LookupFacts(k, fd);
    if d.Null? {
      FailKeepsInv(k, ESEMCLOSE);
    } else {
      DetachKeeps(k.x, r, d.p);
      ReturnKeepsInv(k.p, WaiterBag(k.x), 0);
      var y := Detach(k.x, r, d.p);
      if y.attached[k.x.descs[d.p].sem] == [] {
        DestroyKeeps(y, k.x.descs[d.p].sem);
      }
    }
  }

  // ---- any step, any run

  lemma RecordCallKeepsInv(k: Kern, step: Step)
    requires KernInv(k) && k.p.running.Ref?
    ensures KernInv(RecordCall(k, step))
    ensures step.SleepCall? ==> RecordCall(k, step).p.pcbs[k.p.running.p].syscallNum == CALL_SLEEP
    ensures step.WaitCall? ==> RecordCall(k, step).p.pcbs[k.p.running.p].syscallNum == CALL_WAIT
    ensures step.SemWaitCall? ==> RecordCall(k, step).p.pcbs[k.p.running.p].syscallNum == CALL_SEMWAIT
    ensures RecordCall(k, step).p.running == k.p.running && RecordCall(k, step).x == k.x
  {
    hide Inv;
    hide SemInv;
    match step
    case SpawnCall(f, arg) => TrapKeepsInv(k.p, WaiterBag(k.x), CALL_SPAWN, [f, arg]);
    case ForkCall => TrapKeepsInv(k.p, WaiterBag(k.x), CALL_FORK, []);
    case SleepCall(cycles) => TrapKeepsInv(k.p, WaiterBag(k.x), CALL_SLEEP, [cycles]);
    case WaitCall(pid, result) => TrapKeepsInv(k.p, WaiterBag(k.x), CALL_WAIT, [pid, result]);
    case ExitCall(value) => TrapKeepsInv(k.p, WaiterBag(k.x), CALL_EXIT, [value]);
    case SemOpenCall(id, flags, _) => TrapKeepsInv(k.p, WaiterBag(k.x), CALL_SEMOPEN, [id, flags]);
    case SemCloseCall(fd) => TrapKeepsInv(k.p, WaiterBag(k.x), CALL_SEMCLOSE, [fd]);
    case SemWaitCall(fd) => TrapKeepsInv(k.p, WaiterBag(k.x), CALL_SEMWAIT, [fd]);
    case SemPostCall(fd) => TrapKeepsInv(k.p, WaiterBag(k.x), CALL_SEMPOST, [fd]);
    case PreemptCall => TrapKeepsInv(k.p, WaiterBag(k.x), CALL_PREEMPT, []);
    case Interrupt =>
  }

  lemma SpawnInKernelKeepsInv(k: Kern)
    requires KernInv(k) && CanSpawn(k.p)
    ensures KernInv(SpawnInKernel(k))
  {
    hide Inv;
    var y := SpawnInKernel(k).x;
    SpawnKeepsInv(k.p, WaiterBag(k.x));
    assert DescBag(y) == DescBag(k.x) && OwnedBag(y) == OwnedBag(k.x) && SemBag(y) == SemBag(k.x);
    SameWaiterPcbs(k.x, y);
    forall m | m in y.semList
      ensures Law(y, m)
    {
      SameLaw(k.x, y, m);
    }
  }

  lemma HandleKeepsInv(k: Kern, step: Step)
    requires KernInv(k) && k.p.running.Ref? && Handles(k, step)
    requires step.SleepCall? ==> k.p.pcbs[k.p.running.p].syscallNum == CALL_SLEEP
    requires step.WaitCall? ==> k.p.pcbs[k.p.running.p].syscallNum == CALL_WAIT
    requires step.SemWaitCall? ==> k.p.pcbs[k.p.running.p].syscallNum == CALL_SEMWAIT
    ensures KernInv(Handle(k, step))
  {
    hide Inv;
    hide SemInv;
    match step
    case SpawnCall(_, _) => SpawnInKernelKeepsInv(k);
    case ForkCall => SpawnInKernelKeepsInv(k);
    case SleepCall(_) => SleepKeepsInv(k.p, WaiterBag(k.x));
    case WaitCall(_, _) => WaitKeepsInv(k.p, WaiterBag(k.x));
    case ExitCall(_) => ExitKeepsInv(k.p, WaiterBag(k.x));
    case SemOpenCall(id, flags, count) => SemOpenKeepsInv(k, id, flags, count);
    case SemCloseCall(fd) => SemCloseKeepsInv(k, fd);
    case SemWaitCall(fd) => SemWaitKeepsInv(k, fd);
    case SemPostCall(fd) => SemPostKeepsInv(k, fd);
    case PreemptCall => ScheduleKeepsInv(k.p, WaiterBag(k.x));
    case Interrupt => TickKeepsInv(k.p, WaiterBag(k.x));
  }

  lemma NextKeepsInv(k: Kern, step: Step)
    requires KernInv(k) && Enabled(k, step)
    ensures KernInv(Next(k, step))
  {
    hide KernInv;
    hide Handles;
    RecordCallKeepsInv(k, step);
    HandleKeepsInv(RecordCall(k, step), step);
  }

  predicate Legal(k: Kern, steps: seq<Step>)
    decreases |steps|
  {
    steps == [] || (Enabled(k, steps[0]) && Legal(Next(k, steps[0]), steps[1..]))
  }

  function Run(k: Kern, steps: seq<Step>): Kern
    requires Legal(k, steps)
    decreases |steps|
  {
    if steps == [] then k else Run(Next(k, steps[0]), steps[1..])
  }

  lemma {:induction false} RunKeepsInv(k: Kern, steps: seq<Step>)
    requires KernInv(k) && Legal(k, steps)
    ensures KernInv(Run(k, steps))
    decreases |steps|
  {
    hide KernInv;
    hide Enabled;
    hide Next;
    if steps != [] {
      NextKeepsInv(k, steps[0]);
      RunKeepsInv(Next(k, steps[0]), steps[1..]);
    }
  }

  // ---- the start

  /** disastrOS_start: everything free but the PCB of init, which runs. */
  ghost predicate Boot(k: Kern) {
    BootProcs(k.p) && BootSems(k.x)
  }

  ghost predicate BootProcs(s: Proc) {
    && s.running == Ref(0) && s.init == 0
    && s.ready == [] && s.waiting == [] && s.zombies == [] && s.timers == [] && s.exited == [] && s.delivered == []
    && s.freePtrs == MAX_NUM_PROCESSES
    && AllOf(s.freePcbs, 1, MAX_NUM_PROCESSES) && AllOf(s.freeTimers, 0, MAX_NUM_PROCESSES)
    && (forall p: Block :: s.children[p] == [] && s.pcbs[p].timer == Null)
    && s.pcbs[0].status == Running && s.pcbs[0].pid == 0 && s.lastPid == 1
  }

  ghost predicate BootSems(x: Sems) {
    && x.semList == [] && AllOf(x.freeSems, 0, MAX_NUM_PROCESSES) && AllOf(x.freeDescs, 0, MAX_NUM_PROCESSES)
    && forall p: Block :: x.attached[p] == [] && x.waiters[p] == [] && x.owned[p] == [] && x.lastFd[p] == 0
  }

  lemma BootPlaces(k: Kern)
    requires Boot(k)
    ensures Placed(k.p) && Kin(k.p) && TimersOk(k.p)
  {
    SumEmpty(k.p.children);
    AllOfBag(k.p.freePcbs, 1, MAX_NUM_PROCESSES);
    AllOfBag(k.p.freeTimers, 0, MAX_NUM_PROCESSES);
  }

  lemma BootSemaphores(k: Kern)
    requires Boot(k)
    ensures SemInv(k.x) && WaiterBag(k.x) == multiset{}
  {
    SumEmpty(k.x.attached);
    SumEmpty(k.x.waiters);
    SumEmpty(k.x.owned);
    SumEmpty(WaiterPcbs(k.x));
    AllOfBag(k.x.freeSems, 0, MAX_NUM_PROCESSES);
    AllOfBag(k.x.freeDescs, 0, MAX_NUM_PROCESSES);
  }

  lemma BootHolds(k: Kern)
    requires Boot(k)
    ensures KernInv(k)
  {
    BootPlaces(k);
    BootSemaphores(k);
    forall p: Block
      ensures p !in k.p.freePcbs ==> p == 0
    {
      AllOfExactly(k.p.freePcbs, 1, MAX_NUM_PROCESSES, p);
    }
  }

  /** The laws hold in every state the kernel can reach. */
  lemma Reachable(k: Kern, steps: seq<Step>)
    requires Boot(k) && Legal(k, steps)
    ensures KernInv(Run(k, steps))
  {
    BootHolds(k);
    RunKeepsInv(k, steps);
  }
}
