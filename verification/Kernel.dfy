/** The handlers as the source writes them: fields updated one after the other, lists scanned with cursors.
    Each is proved to make of the state exactly what its step function says; on the way every detached
    process is shown to be on the list it is detached from, every inserted one to be on none, and
    every released block to be in use. */
module KernelCode {
  import opened Bags
  import opened Timers
  import opened Processes
  import opened ProcessLaws
  import opened ProcessSteps
  import opened ProcessExits
  import opened Families
  import opened Scheduling
  import opened Semaphores
  import opened SemaphoreLaws
  import opened KernelRuns
  import MessageQueues
  import MessageQueueCode
  import Resources
  import ResourceLaws
  import ResourceCode
  import SystemRuns

  /** List_insert behind prev, which is a member, or at the front when prev is null. */
  function InsertAfter(l: seq<Block>, prev: BlockRef, x: Block): seq<Block>
    requires prev.Ref? ==> prev.p in l
  {
    if prev.Null? then [x] + l
    else if l[0] == prev.p then [l[0], x] + l[1..]
    else [l[0]] + InsertAfter(l[1..], prev, x)
  }

  lemma {:induction false} InsertAfterAt(l: seq<Block>, x: Block, n: nat)
    requires n < |l| && NoDuplicates(l)
    ensures InsertAfter(l, Ref(l[n]), x) == l[..n + 1] + [x] + l[n + 1..]
  {
    if n > 0 {
      assert l[1..][n - 1] == l[n];
      InsertAfterAt(l[1..], x, n - 1);
      assert l[..n + 1] == [l[0]] + l[1..][..n];
    }
  }

  /** PoolAllocator_getBlock on the stack of free blocks a pool stands for (BlockPool.Take). */
  function TopBlock(free: seq<Block>): BlockRef {
    if free == [] then Null else Ref(free[0])
  }

  class Kernel {
    /** The global variables, the PCB buffer and the pools of the process side; those of the semaphores. */
    var os: Proc
    var sems: Sems

    /** Those of the message queues and of the resources. */
    const room: MessageQueueCode.Mailroom
    const table: ResourceCode.ResourceTable

    ghost function State(): Kern
      reads this
    {
      Kern(os, sems)
    }

    /** With the message queues and the resources. */
    ghost function Whole(): SystemRuns.System
      reads this, room, table
    {
      SystemRuns.System(State(), room.mail, table.reg)
    }

    ghost predicate Unlinked(p: Block)
      reads this
    {
      p !in os.ready && p !in os.waiting && p !in os.zombies
    }

    /** disastrOS_start, with the free stacks of freshly initialised pools: empty lists, and init running. */
    constructor (pcbBlocks: seq<Block>, timerBlocks: seq<Block>, semBlocks: seq<Block>, descBlocks: seq<Block>,
                 room: MessageQueueCode.Mailroom, table: ResourceCode.ResourceTable)
      requires AllOf(pcbBlocks, 0, MAX_NUM_PROCESSES) && AllOf(timerBlocks, 0, MAX_NUM_PROCESSES)
      requires AllOf(semBlocks, 0, MAX_NUM_PROCESSES) && AllOf(descBlocks, 0, MAX_NUM_PROCESSES)
      ensures Boot(State()) && this.room == room && this.table == table
    {
      this.room, this.table := room, table;
      var init := TopBlock(pcbBlocks).p;
      var noLists := seq(MAX_NUM_PROCESSES, _ => []);
      var zeros := seq(MAX_NUM_PROCESSES, _ => 0);
      var pcbs := seq(MAX_NUM_PROCESSES, _ => ZEROED);
      os := Proc(Ref(init), [], [], [], [], pcbs[init := ZEROED.(status := Running, signalsMask := ALL_SIGNALS)],
                 noLists, pcbBlocks[1..], MAX_NUM_PROCESSES, timerBlocks, init, 1, 0, map[], [], []);
      sems := Sems([], semBlocks, zeros, zeros, noLists, noLists, seq(MAX_NUM_PROCESSES, _ => NO_HISTORY),
                   seq(MAX_NUM_PROCESSES, _ => SemDesc(0, 0, 0)), descBlocks, noLists, zeros);
    }

    /** disastrOS_syscall: the call and its arguments go into the PCB of the caller. */
    method SyscallEntry(num: int, args: seq<int>)
      requires os.running.Ref?
      modifies `os
      ensures os == Trap(old(os), num, args)
    {
      var pcb := os.pcbs[os.running.p];
      if |args| > 0 {
        pcb := pcb.(arg0 := args[0]);
      }
      if |args| > 1 {
        pcb := pcb.(arg1 := args[1]);
      }
      os := os.(pcbs := os.pcbs[os.running.p := pcb.(syscallNum := num)]);
    }

    method SetReturn(value: int)
      requires os.running.Ref?
      modifies `os
      ensures os == Return(old(os), value)
    {
      os := os.(pcbs := os.pcbs[os.running.p := os.pcbs[os.running.p].(retvalue := value)]);
    }

    method SetStatus(p: Block, status: Status)
      modifies `os
      ensures os == old(os).(pcbs := old(os).pcbs[p := old(os).pcbs[p].(status := status)])
    {
      os := os.(pcbs := os.pcbs[p := os.pcbs[p].(status := status)]);
    }

    /** A result goes where the caller's pointer says. */
    method StoreAt(address: int, value: int)
      modifies `os
      ensures os == old(os).(memory := old(os).memory[address := value])
    {
      os := os.(memory := os.memory[address := value]);
    }

    // ---- disastrOS_timer.c

    /** TimerList_add: the scan stops at the first timer that is due later. */
    method TimerListAdd(awakening: int, pcb: Block) returns (ok: bool)
      modifies `os
      ensures ok == (old(os).freeTimers != [])
      ensures !ok ==> os == old(os)
      ensures ok ==> var s := old(os);
                     os == s.(freeTimers := s.freeTimers[1..],
                              timers := Insert(s.timers, Timer(s.freeTimers[0], awakening, pcb)))
    {
      var aux := 0;
      while aux < |os.timers| && !(awakening < os.timers[aux].time)
        invariant 0 <= aux <= |os.timers|
        invariant forall i :: 0 <= i < aux ==> os.timers[i].time <= awakening
      {
        aux := aux + 1;
      }
      var block := TopBlock(os.freeTimers);
      if block.Null? {
        return false;
      }
      os := os.(freeTimers := os.freeTimers[1..]);
      var item := Timer(block.p, awakening, pcb);
      InsertPlace(os.timers, item, aux);
      os := os.(timers := os.timers[..aux] + [item] + os.timers[aux..]);
      return true;
    }

    /** TimerList_current */
    method TimerListCurrent(now: int) returns (elapsed: bool)
      ensures elapsed <==> os.timers != [] && now >= os.timers[0].time
    {
      if os.timers == [] {
        return false;
      }
      return now >= os.timers[0].time;
    }

    /** TimerList_removeCurrent, on a timer whose block is in use. */
    method TimerListRemoveCurrent()
      requires os.timers != [] && os.timers[0].block !in os.freeTimers
      modifies `os
      ensures os == old(os).(timers := old(os).timers[1..],
                             freeTimers := [old(os).timers[0].block] + old(os).freeTimers)
    {
      os := os.(freeTimers := GiveBlock(os.freeTimers, os.timers[0].block));
      os := os.(timers := os.timers[1..]);
    }

    // ---- disastrOS_schedule.c

    /** One turn of the wake-up loop. */
    method WakeElapsed(previous: BlockRef, ghost n: nat, ghost sw: multiset<Block>) returns (p: Block)
      requires Inv(os, sw) && os.timers != [] && n <= |os.ready|
      requires previous == if n == 0 then Null else Ref(os.ready[n - 1])
      modifies `os
      ensures os == WakeFirst(old(os), n)
      ensures p == os.ready[n]
    {
      hide Inv;
      WakerFacts(os, sw);
      p := os.timers[0].pcb;
      os := os.(waiting := DetachFrom(os.waiting, p));
      SetStatus(p, Ready);
      os := os.(pcbs := os.pcbs[p := os.pcbs[p].(timer := Null)]);
      assert Unlinked(p);
      if previous.Ref? { InsertAfterAt(os.ready, p, n - 1); }
      os := os.(ready := InsertAfter(os.ready, previous, p));
      TimerListRemoveCurrent();
    }

    method InternalSchedule()
      requires KernInv(State()) && os.running.Ref?
      modifies `os
      ensures os == Schedule(old(os))
    {
      hide Inv;
      hide SemInv;
      ghost var s, sw := os, WaiterBag(sems);
      var previous := Null;
      ghost var n := 0;
      var elapsed := TimerListCurrent(os.time);
      while elapsed
        invariant n <= |os.ready| && Inv(os, sw)
        invariant WakeDue(s, 0) == WakeDue(os, n)
        invariant previous == if n == 0 then Null else Ref(os.ready[n - 1])
        invariant elapsed <==> os.timers != [] && os.time >= os.timers[0].time
        invariant os.running == s.running
        decreases |os.timers|
      {
        WakeFirstKeepsInv(os, sw, n);
        var p := WakeElapsed(previous, n, sw);
        previous := Ref(p);
        n := n + 1;
        elapsed := TimerListCurrent(os.time);
      }
      RunningUnlinked(os, sw);
      RotateReady();
    }

    /** Lines 31-37: the first ready process runs, and the one that did goes to the end. */
    method RotateReady()
      requires os.running.Ref? && Unlinked(os.running.p)
      modifies `os
      ensures os == Rotate(old(os))
    {
      if os.ready != [] {
        var next := os.ready[0];
        os := os.(ready := os.ready[1..]);
        SetStatus(os.running.p, Ready);
        assert Unlinked(os.running.p);
        os := os.(ready := os.ready + [os.running.p]);
        SetStatus(next, Running);
        os := os.(running := Ref(next));
      }
    }

    /** timerInterrupt */
    method TimerInterrupt()
      requires KernInv(State()) && os.running.Ref?
      modifies `os
      ensures os == Tick(old(os))
    {
      hide Inv;
      hide SemInv;
      TimeKeepsInv(os, WaiterBag(sems));
      os := os.(time := os.time + 1);
      InternalSchedule();
    }

    // ---- disastrOS_sleep.c, disastrOS_spawn.c

    method InternalSleep()
      requires KernInv(State()) && os.running.Ref?
      modifies `os
      ensures os == Sleep(old(os))
    {
      hide Inv;
      hide SemInv;
      if os.pcbs[os.running.p].timer.Ref? {
        SetReturn(ESLEEP);
        return;
      }
      var ok := TimerListAdd(os.time + os.pcbs[os.running.p].arg0, os.running.p);
      if !ok {
        SetReturn(ESLEEP);
        return;
      }
      SetStatus(os.running.p, Waiting);
      assert Unlinked(os.running.p) by { RunningUnlinked(old(os), WaiterBag(sems)); }
      os := os.(waiting := os.waiting + [os.running.p]);
      if os.ready != [] {
        os := os.(running := Ref(os.ready[0]), ready := os.ready[1..]);
      } else {
        os := os.(running := Null);
      }
    }

    /** PCB_alloc; the caller makes sure there is a block. */
    method PcbAlloc() returns (c: Block)
      requires os.freePcbs != []
      modifies `os, `sems, room`mail, table`reg
      ensures c == old(os).freePcbs[0]
      ensures room.mail == MessageQueues.NewProcess(old(room.mail), c)
      ensures table.reg == Resources.NewProcess(old(table.reg), c)
      ensures var s := old(os);
              os == s.(freePcbs := s.freePcbs[1..], lastPid := s.lastPid + 1, children := s.children[c := []],
                       pcbs := s.pcbs[c := s.pcbs[c].(pid := s.lastPid, returnValue := 0, status := Invalid,
                                                      signals := 0, signalsMask := ALL_SIGNALS,
                                                      parent := Null, timer := Null)])
      ensures sems == old(sems).(lastFd := old(sems).lastFd[c := 0])
    {
      c := TopBlock(os.freePcbs).p;
      os := os.(freePcbs := os.freePcbs[1..]);
      os := os.(pcbs := os.pcbs[c := os.pcbs[c].(pid := os.lastPid)]);
      os := os.(lastPid := os.lastPid + 1);
      os := os.(pcbs := os.pcbs[c := os.pcbs[c].(returnValue := 0, status := Invalid, signals := 0,
                                                 signalsMask := ALL_SIGNALS, parent := Null, timer := Null)]);
      table.ResetProcess(c);
      os := os.(children := os.children[c := []]);
      sems := sems.(lastFd := sems.lastFd[c := 0]);
      room.ResetProcess(c);
    }

    method InternalSpawn()
      requires KernInv(State()) && CanSpawn(os)
      modifies `os, `sems, room`mail, table`reg
      ensures State() == SpawnInKernel(old(State()))
      ensures room.mail == MessageQueues.NewProcess(old(room.mail), old(os).freePcbs[0])
      ensures table.reg == Resources.NewProcess(old(table.reg), old(os).freePcbs[0])
    {
      hide Inv;
      hide SemInv;
      NewbornApart(os, WaiterBag(sems));
      var c := PcbAlloc();
      var r := os.running.p;
      SetStatus(c, Ready);
      os := os.(pcbs := os.pcbs[c := os.pcbs[c].(parent := Ref(r))]);
      os := os.(freePtrs := os.freePtrs - 1);
      os := os.(children := os.children[r := os.children[r] + [c]]);
      assert Unlinked(c);
      os := os.(ready := os.ready + [c]);
      SetReturn(os.pcbs[c].pid);
    }

    // ---- disastrOS_wait.c

    /** The scan of the children; aux stops at the first match, and i is where the last visited one was. */
    method ScanChildren(pid: int) returns (i: nat)
      requires os.running.Ref? && os.children[os.running.p] != []
      ensures i == Awaited(os, os.children[os.running.p], pid)
    {
      var cs := os.children[os.running.p];
      var aux := 0;
      i := 0;
      while aux < |cs|
        invariant 0 <= aux <= |cs| && (aux == 0 ==> i == 0) && (aux > 0 ==> i == aux - 1)
        invariant forall j :: 0 <= j < aux ==> !Matches(os, cs[j], pid)
      {
        i := aux;
        if pid == 0 && os.pcbs[cs[aux]].status == Zombie {
          break;
        }
        if pid != 0 && os.pcbs[cs[aux]].pid == pid {
          break;
        }
        aux := aux + 1;
      }
      ScanStops(os, cs, pid, i);
    }

    method InternalWait()
      requires KernInv(State()) && os.running.Ref? && (WaitReturns(os) || os.ready != [])
      modifies `os
      ensures os == Wait(old(os))
    {
      hide Inv;
      hide SemInv;
      var r := os.running.p;
      var pid, result := os.pcbs[r].arg0, os.pcbs[r].arg1;
      if os.children[r] == [] {
        SetReturn(EWAIT);
        return;
      }
      var i := ScanChildren(pid);
      var z := os.children[r][i];
      if os.pcbs[z].status == Zombie {
        ZombieChildFacts(os, WaiterBag(sems), i);
        BuryChild(i);
        SetReturn(os.pcbs[z].pid);
        return;
      }
      SetStatus(r, Waiting);
      assert Unlinked(r) by { RunningUnlinked(old(os), WaiterBag(sems)); }
      os := os.(waiting := os.waiting + [r]);
      os := os.(running := Ref(os.ready[0]), ready := os.ready[1..]);
    }

    /** Lines 44-56: the zombie leaves its parent and its list, its value is passed on, and its PCB is free. */
    method BuryChild(i: nat)
      requires os.running.Ref? && i < |os.children[os.running.p]|
      requires var z := os.children[os.running.p][i]; z in os.zombies && z !in os.freePcbs
      modifies `os
      ensures os == Bury(old(os), i)
    {
      var r := os.running.p;
      var z, result := os.children[r][i], os.pcbs[r].arg1;
      os := os.(children := os.children[r := os.children[r][..i] + os.children[r][i + 1..]]);
      os := os.(freePtrs := os.freePtrs + 1);
      os := os.(zombies := DetachFrom(os.zombies, z));
      os := os.(delivered := os.delivered + [ExitRecord(os.pcbs[z].pid, os.pcbs[z].returnValue, os.pcbs[r].pid)]);
      if result != 0 {
        os := os.(memory := os.memory[result := os.pcbs[z].returnValue]);
      }
      os := os.(freePcbs := GiveBlock(os.freePcbs, z));
    }

    // ---- disastrOS_exit.c

    /** The reparenting loop. */
    method ReparentChildren()
      requires os.running.Ref? && os.running.p != os.init
      modifies `os
      ensures os == Reparent(old(os))
    {
      hide Reparent;
      hide Signalled;
      var r := os.running.p;
      while os.children[r] != []
        invariant os.running == Ref(r) && os.init == old(os).init && r != os.init
        invariant Reparent(old(os)) == Reparent(os)
        decreases |os.children[r]|
      {
        ghost var before := os;
        ReparentUnfolds(before);
        var c := os.children[r][0];
        os := os.(children := os.children[r := os.children[r][1..]]);
        os := os.(children := os.children[os.init := os.children[os.init] + [c]]);
        os := os.(pcbs := os.pcbs[c := Signalled(os.pcbs[c], SIGHUP)]);
        assert os == ReparentFirst(before);
      }
      ReparentUnfolds(os);
    }

    /** PCBPtr_byPID on the parent's children, and the detach of what it finds. */
    method DetachByPid(q: Block, pid: int)
      requires exists c :: c in os.children[q] && os.pcbs[c].pid == pid
      modifies `os
      ensures os == old(os).(children := old(os).children[q := RemovePid(old(os), old(os).children[q], pid)])
    {
      var cs := os.children[q];
      var i := 0;
      while i < |cs| && os.pcbs[cs[i]].pid != pid
        invariant 0 <= i <= |cs| && forall j :: 0 <= j < i ==> os.pcbs[cs[j]].pid != pid
      {
        i := i + 1;
      }
      RemovePidAt(os, cs, pid, i);
      os := os.(children := os.children[q := cs[..i] + cs[i + 1..]]);
    }

    /** The sweep for timers of the dying process. It finds none: a running process does not sleep. */
    method SweepTimers()
      requires os.running.Ref? && os.running.p !in Pcbs(os.timers)
      modifies `os
      ensures var s, r := old(os), old(os).running.p;
              os == s.(timers := NotOf(s.timers, r), freeTimers := BlocksOf(s.timers, r) + s.freeTimers)
      ensures os == old(os)
    {
      var aux := 0;
      while aux < |os.timers|
        invariant 0 <= aux <= |os.timers| && os == old(os)
      {
        assert Pcbs(os.timers)[aux] == os.timers[aux].pcb;
        if os.timers[aux].pcb == os.running.p {
          assert false;
        }
        aux := aux + 1;
      }
      NoTimersOfOthers(os.timers, os.running.p);
      assert os.freeTimers == [] + os.freeTimers;
    }

    /** Lines 17-37: the exit value is stored, the children go to init, the process becomes a zombie and its
        parent gets SIGCHLD. */
    method BecomeZombie(q: Block)
      requires os.running.Ref? && os.running.p != os.init && os.pcbs[os.running.p].parent == Ref(q)
      requires Unlinked(os.running.p)
      modifies `os
      ensures os == Die(Reparent(old(os)))
    {
      hide Reparent;
      hide Signalled;
      var r := os.running.p;
      os := os.(pcbs := os.pcbs[r := os.pcbs[r].(returnValue := os.pcbs[r].arg0)]);
      StoreThenReparent(old(os));
      assert os == StoreValue(old(os));
      ReparentChildren();
      ghost var s := Reparent(old(os));
      assert os == StoreValue(s);
      SetStatus(r, Zombie);
      assert Unlinked(r);
      os := os.(zombies := os.zombies + [r]);
      os := os.(pcbs := os.pcbs[q := Signalled(os.pcbs[q], SIGCHLD)]);
      os := os.(exited := os.exited + [ExitRecord(os.pcbs[r].pid, os.pcbs[r].returnValue, os.pcbs[q].pid)]);
    }

    method InternalExit()
      requires KernInv(State()) && CanExit(os) && ResourceLaws.RegInv(table.reg)
      modifies `os, table`reg
      ensures os == Exit(old(os)) && ResourceLaws.RegInv(table.reg)
      ensures table.reg == if SystemRuns.HandsOver(old(os)) then Resources.ReleaseAll(old(table.reg), old(os).running.p)
                           else old(table.reg)
    {
      hide Inv;
      hide SemInv;
      hide Reparent;
      hide Signalled;
      hide ResourceLaws.RegInv;
      DyingProcessFacts(os, WaiterBag(sems));
      var r, q := os.running.p, os.pcbs[os.running.p].parent.p;
      BecomeZombie(q);
      if os.pcbs[q].status == Waiting && os.pcbs[q].syscallNum == CALL_WAIT
         && (os.pcbs[q].arg0 == 0 || os.pcbs[q].arg0 == os.pcbs[r].pid) {
        HandOver(q);
      } else {
        var next := os.ready[0];
        os := os.(ready := os.ready[1..]);
        SetStatus(next, Running);
        os := os.(running := Ref(next));
      }
    }

    /** Lines 46-87: the parent is woken, takes the status and runs; the dead process is taken off every list, and it
        and its resource descriptors are freed. */
    method HandOver(q: Block)
      requires os.running.Ref? && os.pcbs[os.running.p].parent == Ref(q) && q != os.running.p
      requires q in os.waiting && os.running.p in os.zombies && os.running.p !in os.freePcbs
      requires os.running.p in os.children[q] && os.running.p !in Pcbs(os.timers) && ResourceLaws.RegInv(table.reg)
      modifies `os, table`reg
      ensures os == HandOff(old(os)) && ResourceLaws.RegInv(table.reg)
      ensures table.reg == Resources.ReleaseAll(old(table.reg), old(os).running.p)
    {
      hide ResourceLaws.RegInv;
      var r := os.running.p;
      os := os.(waiting := DetachFrom(os.waiting, q));
      SetStatus(q, Running);
      RemovePidStable(old(os), os, os.children[q], os.pcbs[r].pid);
      DetachByPid(q, os.pcbs[r].pid);
      os := os.(pcbs := os.pcbs[q := os.pcbs[q].(retvalue := os.pcbs[r].pid)]);
      os := os.(delivered := os.delivered + [ExitRecord(os.pcbs[r].pid, os.pcbs[r].returnValue, os.pcbs[q].pid)]);
      if os.pcbs[q].arg1 != 0 {
        os := os.(memory := os.memory[os.pcbs[q].arg1 := os.pcbs[r].returnValue]);
      }
      SweepTimers();
      table.ReleaseDescriptors(r);
      os := os.(zombies := DetachFrom(os.zombies, r));
      os := os.(freePcbs := GiveBlock(os.freePcbs, r));
      os := os.(running := Ref(q));
    }

    // ---- the semaphore handlers

    /** SemDescriptorList_byFd */
    method DescriptorByFd(ds: seq<Block>, fd: int) returns (d: BlockRef)
      ensures d == ByFd(sems, ds, fd)
    {
      var aux := 0;
      while aux < |ds|
        invariant 0 <= aux <= |ds| && ByFd(sems, ds, fd) == ByFd(sems, ds[aux..], fd)
      {
        if sems.descs[ds[aux]].fd == fd {
          return Ref(ds[aux]);
        }
        assert ds[aux..][1..] == ds[aux + 1..];
        aux := aux + 1;
      }
      return Null;
    }

    /** SemaphoreList_byId */
    method SemaphoreById(ms: seq<Block>, id: int) returns (m: BlockRef)
      ensures m == ById(sems, ms, id)
    {
      var aux := 0;
      while aux < |ms|
        invariant 0 <= aux <= |ms| && ById(sems, ms, id) == ById(sems, ms[aux..], id)
      {
        if sems.ids[ms[aux]] == id {
          return Ref(ms[aux]);
        }
        assert ms[aux..][1..] == ms[aux + 1..];
        aux := aux + 1;
      }
      return Null;
    }

    method FindDescriptor(fd: int) returns (d: BlockRef)
      requires os.running.Ref?
      ensures d == Lookup(State(), fd)
    {
      if fd < 0 || fd > MAX_NUM_SEMDESCRIPTORS_PER_PROCESS {
        return Null;
      }
      d := DescriptorByFd(sems.owned[os.running.p], fd);
    }

    method InternalSemWait(fd: int)
      requires KernInv(State()) && os.running.Ref? && (WouldBlock(State(), fd) ==> os.ready != [])
      modifies `os, `sems
      ensures State() == SemWait(old(State()), fd)
    {
      hide Inv;
      hide SemInv;
      LookupFacts(State(), fd);
      var d := FindDescriptor(fd);
      if d.Null? {
        SetReturn(ESEMWAIT);
        return;
      }
      var r, m := os.running.p, sems.descs[d.p].sem;
      var h := sems.history[m];
      if sems.counts[m] > 0 {
        sems := sems.(counts := sems.counts[m := sems.counts[m] - 1]);
        SetReturn(0);
        sems := sems.(history := sems.history[m := h.(waits := h.waits + 1, holders := h.holders + multiset{r})]);
      } else {
        sems := sems.(attached := sems.attached[m := DetachFrom(sems.attached[m], d.p)]);
        sems := sems.(waiters := sems.waiters[m := sems.waiters[m] + [d.p]]);
        sems := sems.(history := sems.history[m := h.(blocked := h.blocked + [sems.descs[d.p].owner])]);
        var next := os.ready[0];
        os := os.(ready := os.ready[1..]);
        assert Unlinked(r) by { RunningUnlinked(old(os), WaiterBag(old(sems))); }
        os := os.(waiting := os.waiting + [r]);
        os := os.(running := Ref(next));
      }
    }

    method InternalSemPost(fd: int)
      requires KernInv(State()) && os.running.Ref?
      modifies `os, `sems
      ensures State() == SemPost(old(State()), fd)
    {
      hide Inv;
      hide SemInv;
      LookupFacts(State(), fd);
      var d := FindDescriptor(fd);
      if d.Null? {
        SetReturn(ESEMPOST);
        return;
      }
      var r, m := os.running.p, sems.descs[d.p].sem;
      sems := sems.(counts := sems.counts[m := sems.counts[m] + 1]);
      var h := sems.history[m];
      sems := sems.(history := sems.history[m := h.(posts := h.posts + 1, holders := h.holders - multiset{r})]);
      if sems.counts[m] > 0 && sems.waiters[m] != [] {
        WaiterIsWakeable(old(State()), m);
        WakeWaiter(m);
      } else {
        SetReturn(0);
      }
    }

    /** The emulated wait of semPost: the first waiter becomes ready, and its descriptor idle. */
    method WakeWaiter(m: Block)
      requires sems.waiters[m] != [] && WakeableWaiter(os, sems.descs[sems.waiters[m][0]].owner)
      modifies `os, `sems
      ensures os == WakeFromSemaphore(old(os), old(sems).descs[old(sems).waiters[m][0]].owner)
      ensures sems == Dequeue(old(sems), m)
    {
      sems := sems.(counts := sems.counts[m := sems.counts[m] - 1]);
      var d := sems.waiters[m][0];
      sems := sems.(waiters := sems.waiters[m := sems.waiters[m][1..]]);
      var q := sems.descs[d].owner;
      os := os.(waiting := DetachFrom(os.waiting, q));
      assert Unlinked(q);
      os := os.(ready := os.ready + [q]);
      sems := sems.(attached := sems.attached[m := sems.attached[m] + [d]]);
      var h := sems.history[m];
      h := h.(waits := h.waits + 1, woken := h.woken + [q], holders := h.holders + multiset{q});
      sems := sems.(history := sems.history[m := h]);
    }

    method InternalSemOpen(id: int, flags: int, count: int)
      requires os.running.Ref?
      modifies `os, `sems
      ensures State() == SemOpen(old(State()), id, flags, count)
    {
      var r := os.running.p;
      if sems.lastFd[r] + 1 > MAX_NUM_SEMDESCRIPTORS_PER_PROCESS {
        SetReturn(ESEMOPEN);
        return;
      }
      if id < 0 {
        SetReturn(ESEMOPEN);
        return;
      }
      var m := SemaphoreById(sems.semList, id);
      if CreateSet(flags) {
        if m.Ref? && ExclSet(flags) {
          SetReturn(ESEMOPEN);
          return;
        } else if m.Null? {
          if |sems.semList| + 1 > MAX_NUM_SEMAPHORES {
            SetReturn(ESEMOPEN);
            return;
          }
          m := TopBlock(sems.freeSems);
          if m.Null? {
            SetReturn(ESEMOPEN);
            return;
          }
          sems := sems.(freeSems := sems.freeSems[1..]);
          sems := sems.(ids := sems.ids[m.p := id], counts := sems.counts[m.p := InitialCount(count)],
                        attached := sems.attached[m.p := []]);
          sems := sems.(semList := sems.semList + [m.p]);
          sems := sems.(history := sems.history[m.p := NO_HISTORY.(initial := InitialCount(count))]);
          assert sems == Create(old(sems), id, InitialCount(count));
        }
      }
      if m.Null? {
        SetReturn(ESEMOPEN);
        return;
      }
      AttachDescriptor(m.p);
    }

    method AttachDescriptor(m: Block)
      requires os.running.Ref?
      modifies `os, `sems
      ensures State() == Attach(old(State()), m)
    {
      var r := os.running.p;
      var d := TopBlock(sems.freeDescs);
      if d.Null? {
        SetReturn(ESEMOPEN);
        return;
      }
      sems := sems.(freeDescs := sems.freeDescs[1..]);
      sems := sems.(descs := sems.descs[d.p := SemDesc(r, m, sems.lastFd[r])]);
      sems := sems.(owned := sems.owned[r := sems.owned[r] + [d.p]]);
      sems := sems.(attached := sems.attached[m := sems.attached[m] + [d.p]]);
      sems := sems.(lastFd := sems.lastFd[r := sems.lastFd[r] + 1]);
      SetReturn(sems.lastFd[r] - 1);
    }

    method InternalSemClose(fd: int)
      requires KernInv(State()) && os.running.Ref?
      modifies `os, `sems
      ensures State() == SemClose(old(State()), fd)
    {
      hide Inv;
      hide SemInv;
      LookupFacts(State(), fd);
      var d := FindDescriptor(fd);
      if d.Null? {
        SetReturn(ESEMCLOSE);
        return;
      }
      var r, m := os.running.p, sems.descs[d.p].sem;
      CloseFacts(State(), d.p);
      sems := sems.(owned := sems.owned[r := DetachFrom(sems.owned[r], d.p)]);
      sems := sems.(attached := sems.attached[m := DetachFrom(sems.attached[m], d.p)]);
      sems := sems.(freeDescs := GiveBlock(sems.freeDescs, d.p));
      sems := sems.(lastFd := sems.lastFd[r := sems.lastFd[r] - 1]);
      if sems.attached[m] == [] {
        sems := sems.(semList := DetachFrom(sems.semList, m));
        sems := sems.(freeSems := GiveBlock(sems.freeSems, m));
      }
      SetReturn(0);
    }

    // ---- the system call dispatcher, and whole runs

    method Execute(step: Step)
      requires KernInv(State()) && Enabled(State(), step) && ResourceLaws.RegInv(table.reg)
      modifies `os, `sems, room`mail, table`reg
      ensures State() == Next(old(State()), step) && KernInv(State())
      ensures (room.mail, table.reg) == SystemRuns.Others(old(Whole()), step) && ResourceLaws.RegInv(table.reg)
    {
      hide Inv;
      hide SemInv;
      hide ResourceLaws.RegInv, SystemRuns.HandsOver;
      hide Sleep, Wait, Exit, Schedule, Tick, SemWait, SemPost, SemOpen, SemClose;
      RecordCallKeepsInv(State(), step);
      NextKeepsInv(State(), step);
      match step
      case SpawnCall(f, arg) =>
        ResourceLaws.NewProcessKeeps(table.reg, os.freePcbs[0]);
        SyscallEntry(CALL_SPAWN, [f, arg]);
        InternalSpawn();
      case ForkCall => // internal_fork has the list steps of internal_spawn
        ResourceLaws.NewProcessKeeps(table.reg, os.freePcbs[0]);
        SyscallEntry(CALL_FORK, []);
        InternalSpawn();
      case SleepCall(cycles) => SyscallEntry(CALL_SLEEP, [cycles]); InternalSleep();
      case WaitCall(pid, result) => SyscallEntry(CALL_WAIT, [pid, result]); InternalWait();
      case ExitCall(value) => SyscallEntry(CALL_EXIT, [value]); InternalExit();
      case SemOpenCall(id, flags, count) => SyscallEntry(CALL_SEMOPEN, [id, flags]); InternalSemOpen(id, flags, count);
      case SemCloseCall(fd) => SyscallEntry(CALL_SEMCLOSE, [fd]); InternalSemClose(fd);
      case SemWaitCall(fd) => SyscallEntry(CALL_SEMWAIT, [fd]); InternalSemWait(fd);
      case SemPostCall(fd) => SyscallEntry(CALL_SEMPOST, [fd]); InternalSemPost(fd);
      case PreemptCall => SyscallEntry(CALL_PREEMPT, []); InternalSchedule();
      case Interrupt => TimerInterrupt();
    }

    method ExecuteAll(steps: seq<Step>)
      requires KernInv(State()) && Legal(State(), steps) && ResourceLaws.RegInv(table.reg)
      modifies `os, `sems, room`mail, table`reg
      ensures State() == Run(old(State()), steps) && KernInv(State())
    {
      hide KernInv;
      hide Enabled;
      hide Next;
      hide ResourceLaws.RegInv;
      var i := 0;
      while i < |steps|
        invariant 0 <= i <= |steps| && KernInv(State()) && Legal(State(), steps[i..])
        invariant ResourceLaws.RegInv(table.reg)
        invariant Run(old(State()), steps) == Run(State(), steps[i..])
      {
        assert steps[i..][1..] == steps[i + 1..];
        Execute(steps[i]);
        i := i + 1;
      }
    }
  }

  lemma {:induction false} RemovePidAt(s: Proc, cs: seq<Block>, pid: int, i: nat)
    requires i < |cs| && s.pcbs[cs[i]].pid == pid && forall j :: 0 <= j < i ==> s.pcbs[cs[j]].pid != pid
    ensures RemovePid(s, cs, pid) == cs[..i] + cs[i + 1..]
  {
    if i == 0 {
      assert cs[..0] + cs[1..] == cs[1..];
    } else {
      var rest := cs[1..];
      forall j | 0 <= j < i - 1
        ensures s.pcbs[rest[j]].pid != pid
      {
        assert rest[j] == cs[j + 1];
      }
      RemovePidAt(s, rest, pid, i - 1);
      assert [cs[0]] + (rest[..i - 1] + rest[i..]) == cs[..i] + cs[i + 1..];
    }
  }

  /** Looking up by pid depends on the pids only. */
  lemma {:induction false} RemovePidStable(s: Proc, t: Proc, cs: seq<Block>, pid: int)
    requires forall p: Block :: t.pcbs[p].pid == s.pcbs[p].pid
    ensures RemovePid(t, cs, pid) == RemovePid(s, cs, pid)
  {
    if cs != [] {
      RemovePidStable(s, t, cs[1..], pid);
    }
  }

  /** What exit relies on, with or without children. */
  lemma DyingProcessFacts(s: Proc, sw: multiset<Block>)
    requires Inv(s, sw) && CanExit(s)
    ensures var r, q, u := s.running.p, s.pcbs[s.running.p].parent.p, Reparent(s);
            && r !in s.ready && r !in s.waiting && r !in s.zombies && r !in s.freePcbs && r !in Pcbs(s.timers)
            && (AwaitedBy(Die(u), r, q) ==> q != r && q in s.waiting && r in u.children[q])
  {
    hide Placed, Kin, TimersOk, Waiters, Statuses, Pids, ExitsAccounted, NoLostWakeup, Reparent, Signalled;
    var r, q := s.running.p, s.pcbs[s.running.p].parent.p;
    PlacesApart(s);
    NotWaiting(s, sw, r);
    HasParent(s, r);
    ReparentMovesLists(s);
    RunningOrReady(s);
    if q != r && s.pcbs[q].status == Waiting {
      ParentInUse(s, r);
      PlaceByStatus(s, sw, q);
    }
  }

  lemma RunningOrReady(s: Proc)
    requires Statuses(s) && s.running.Ref?
    ensures s.pcbs[s.running.p].status in {Running, Ready}
  {
  }

  lemma ParentInUse(s: Proc, r: Block)
    requires Kin(s) && s.pcbs[r].parent.Ref? && r in s.children[s.pcbs[r].parent.p]
    ensures s.pcbs[r].parent.p !in s.freePcbs
  {
  }

  lemma ReparentUnfolds(s: Proc)
    requires s.running.Ref? && s.running.p != s.init
    ensures Reparent(s) == if s.children[s.running.p] == [] then s else Reparent(ReparentFirst(s))
  {
  }

  function StoreValue(s: Proc): Proc
    requires s.running.Ref?
  {
    var r := s.running.p;
    s.(pcbs := s.pcbs[r := s.pcbs[r].(returnValue := s.pcbs[r].arg0)])
  }

  lemma StoreThenReparentFirst(s: Proc)
    requires s.running.Ref? && s.running.p != s.init && s.children[s.running.p] != []
    ensures ReparentFirst(StoreValue(s)) == StoreValue(ReparentFirst(s))
  {
    hide Signalled;
    var r, c := s.running.p, s.children[s.running.p][0];
    var v := s.pcbs[r].arg0;
    var a, b := s.pcbs[r].(returnValue := v), Signalled(s.pcbs[c], SIGHUP);
    if c == r {
      SignalledAndStored(s.pcbs[r], v, SIGHUP);
      assert s.pcbs[r := a][r := Signalled(a, SIGHUP)] == s.pcbs[r := b][r := b.(returnValue := v)];
    } else {
      UpdatesCommute(s.pcbs, r, a, c, b);
    }
  }

  lemma SignalledAndStored(pcb: Pcb, value: int, signal: bv32)
    ensures Signalled(pcb.(returnValue := value), signal) == Signalled(pcb, signal).(returnValue := value)
  {
    hide AddSignal;
  }

  lemma UpdatesCommute(t: seq<Pcb>, i: nat, a: Pcb, j: nat, b: Pcb)
    requires i < |t| && j < |t| && i != j
    ensures t[i := a][j := b] == t[j := b][i := a]
  {
  }

  /** Storing the exit value before the reparenting loop is the same as storing it after. */
  lemma {:induction false} StoreThenReparent(s: Proc)
    requires s.running.Ref? && s.running.p != s.init
    ensures Reparent(StoreValue(s)) == StoreValue(Reparent(s))
    decreases |s.children[s.running.p]|
  {
    hide Reparent;
    ReparentUnfolds(s);
    ReparentUnfolds(StoreValue(s));
    if s.children[s.running.p] != [] {
      StoreThenReparentFirst(s);
      StoreThenReparent(ReparentFirst(s));
    }
  }

  /** A process that may be moved from the waiting list to the ready list. */
  ghost predicate WakeableWaiter(s: Proc, q: Block) {
    q in s.waiting && q !in Remove(s.waiting, q) && q !in s.ready && q !in s.zombies
  }

  lemma WaiterIsWakeable(k: Kern, m: Block)
    requires KernInv(k) && k.x.waiters[m] != []
    ensures WakeableWaiter(k.p, k.x.descs[k.x.waiters[m][0]].owner)
  {
    var q := k.x.descs[k.x.waiters[m][0]].owner;
    WaiterOwnerCounted(k.x, m, k.x.waiters[m][0]);
    InBag(k.p.waiting, q);
    assert (multiset(Pcbs(k.p.timers)) + WaiterBag(k.x))[q] <= multiset(k.p.waiting)[q];
    PlacesApart(k.p);
    WithoutDuplicates(k.p);
    RemovedIsGone(k.p.waiting, q);
  }

  /** What semClose relies on. */
  lemma CloseFacts(k: Kern, d: Block)
    requires KernInv(k) && k.p.running.Ref? && d in k.x.owned[k.p.running.p]
    ensures d !in k.x.freeDescs && k.x.descs[d].sem !in k.x.freeSems
  {
    RunningOffWaitLists(k);
    OwnedDescriptor(k.x, k.p.running.p, d);
    ListedNotFree(k.x, k.x.descs[d].sem);
  }

  lemma RunningUnlinked(s: Proc, sw: multiset<Block>)
    requires Inv(s, sw) && s.running.Ref?
    ensures s.running.p !in s.ready && s.running.p !in s.waiting && s.running.p !in s.zombies
  {
    PlacesApart(s);
  }

  lemma NewbornApart(s: Proc, sw: multiset<Block>)
    requires Inv(s, sw) && CanSpawn(s)
    ensures var c := s.freePcbs[0];
            c !in s.ready && c !in s.waiting && c !in s.zombies && c != s.running.p && s.children[c] == []
  {
    NewbornFacts(s, sw);
  }

  lemma ZombieChildFacts(s: Proc, sw: multiset<Block>, i: nat)
    requires Inv(s, sw) && s.running.Ref? && i < |s.children[s.running.p]|
    requires s.pcbs[s.children[s.running.p][i]].status == Zombie
    ensures var z := s.children[s.running.p][i]; z in s.zombies && z !in s.freePcbs && z != s.running.p
  {
    ChildInUse(s, s.running.p, s.children[s.running.p][i]);
    PlaceByStatus(s, sw, s.children[s.running.p][i]);
    PlacesApart(s);
  }

  lemma {:induction false} ScanStops(s: Proc, cs: seq<Block>, pid: int, i: nat)
    requires i < |cs| && (forall j :: 0 <= j < i ==> !Matches(s, cs[j], pid))
    requires Matches(s, cs[i], pid) || i == |cs| - 1
    ensures Awaited(s, cs, pid) == i
  {
    if i > 0 {
      assert forall j :: 0 <= j < i - 1 ==> cs[1..][j] == cs[j + 1];
      ScanStops(s, cs[1..], pid, i - 1);
    }
  }

  /** What the wake-up loop relies on: the first sleeper is on the waiting list, on no other, and its timer
      block is in use. */
  lemma WakerFacts(s: Proc, sw: multiset<Block>)
    requires Inv(s, sw) && s.timers != []
    ensures var p := s.timers[0].pcb;
            && p in s.waiting && p !in Remove(s.waiting, p) && p !in s.ready && p !in s.zombies
            && s.timers[0].block !in s.freeTimers
            && NoDuplicates(s.ready)
  {
    FirstSleeperWaits(s, sw);
    PlacesApart(s);
    WithoutDuplicates(s);
    RemovedIsGone(s.waiting, s.timers[0].pcb);
    TimerBlockInUse(s);
  }

  lemma TimerBlockInUse(s: Proc)
    requires TimersOk(s) && s.timers != []
    ensures s.timers[0].block !in s.freeTimers
  {
    var b := s.timers[0].block;
    assert TimerBlocks(s.timers)[0] == b;
    assert multiset(TimerBlocks(s.timers))[b] >= 1;
    assert (TimerBag(s))[b] <= 1;
    assert b !in multiset(s.freeTimers);
  }

  /** The place the scan finds is that of the insertion. */
  lemma {:induction false} InsertPlace(ts: seq<Timer>, x: Timer, k: nat)
    requires k <= |ts| && (forall i :: 0 <= i < k ==> ts[i].time <= x.time)
    requires k < |ts| ==> x.time < ts[k].time
    ensures Insert(ts, x) == ts[..k] + [x] + ts[k..]
  {
    if k > 0 {
      assert forall i :: 0 <= i < k - 1 ==> ts[1..][i] == ts[i + 1];
      InsertPlace(ts[1..], x, k - 1);
      assert ts[..k] == [ts[0]] + ts[1..][..k - 1];
    }
  }
}
