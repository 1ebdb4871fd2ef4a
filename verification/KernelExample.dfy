/** Short runs from the start in which processes and semaphores do not behave as the comments say. */
module KernelExample {
  import opened Bags
  import opened Timers
  import opened Processes
  import opened ProcessLaws
  import opened Families
  import opened Semaphores
  import opened SemaphoreLaws
  import opened KernelRuns
  import opened KernelTheorems

  /** One more step at the front of a run. */
  lemma FirstStep(k: Kern, step: Step, rest: seq<Step>)
    requires Enabled(k, step)
    ensures Legal(k, [step] + rest) <==> Legal(Next(k, step), rest)
    ensures Legal(k, [step] + rest) ==> Run(k, [step] + rest) == Run(Next(k, step), rest)
  {
    assert ([step] + rest)[1..] == rest;
  }

  /** Who runs, and who is on which list; no timers. */
  ghost predicate Lists(s: Proc, running: Block, ready: seq<Block>, waiting: seq<Block>, zombies: seq<Block>) {
    && s.running == Ref(running) && s.init == 0 && s.timers == []
    && s.ready == ready && s.waiting == waiting && s.zombies == zombies
  }

  // ---- two processes

  /** init, in PCB 0, has started one process, in PCB 1 with pid 1. */
  ghost predicate Two(s: Proc) {
    && s.children[0] == [1] && s.children[1] == [] && s.pcbs[0].pid == 0 && s.pcbs[1].pid == 1 && s.lastPid == 2
    && s.pcbs[1].parent == Ref(0) && s.freePtrs > 0 && |s.freePcbs| > 0 && s.freePcbs[0] == 2 && s.children[2] == []
  }

  lemma SpawnFirst(k: Kern)
    requires KernelRuns.BootProcs(k.p)
    ensures Enabled(k, SpawnCall(0, 0))
    ensures var t := Next(k, SpawnCall(0, 0));
            Lists(t.p, 0, [1], [], []) && Two(t.p) && t.p.pcbs[1].status == Ready
            && t.x == k.x.(lastFd := k.x.lastFd[1 := 0])
  {
  }

  /** The timer or a preempt call makes the other process run. */
  lemma Switch(k: Kern, a: Block, b: Block)
    requires Lists(k.p, a, [b], [], []) && Two(k.p) && a != b
    ensures Enabled(k, PreemptCall)
    ensures var t := Next(k, PreemptCall);
            Lists(t.p, b, [a], [], []) && Two(t.p) && t.x == k.x && t.p.pcbs[a].status == Ready
            && t.p.pcbs[b].status == Running
  {
  }

  /** Both have run, and process 1 runs. */
  lemma TwoRunning(k: Kern)
    requires Boot(k)
    ensures var steps := [SpawnCall(0, 0), PreemptCall];
            && Legal(k, steps)
            && var t := Run(k, steps);
               Lists(t.p, 1, [0], [], []) && Two(t.p) && t.p.pcbs[0].status == Ready && KernInv(t)
               && t.x == k.x.(lastFd := k.x.lastFd[1 := 0])
  {
    hide Next, Enabled, Two, BootProcs, BootSems, KernInv;
    SpawnFirst(k);
    var k1 := Next(k, SpawnCall(0, 0));
    Switch(k1, 0, 1);
    FirstStep(k1, PreemptCall, []);
    FirstStep(k, SpawnCall(0, 0), [PreemptCall]);
    Reachable(k, [SpawnCall(0, 0), PreemptCall]);
  }

  // ---- wait for a process that is not there

  lemma ExitToZombie(k: Kern, value: int)
    requires Lists(k.p, 1, [0], [], []) && Two(k.p) && k.p.pcbs[0].status == Ready
    ensures Enabled(k, ExitCall(value))
    ensures var t := Next(k, ExitCall(value)).p;
            Lists(t, 0, [], [], [1]) && t.children[0] == [1] && t.pcbs[1].pid == 1 && t.pcbs[1].status == Zombie
            && t.pcbs[1].returnValue == value && t.pcbs[0].pid == 0 && t.freePtrs > 0
            && Next(k, ExitCall(value)).x == k.x
  {
    hide Signalled;
  }

  lemma WaitReaps(k: Kern, pid: int, result: int)
    requires Lists(k.p, 0, [], [], [1]) && k.p.children[0] == [1]
    requires k.p.pcbs[1].pid == 1 && k.p.pcbs[1].status == Zombie
    ensures Enabled(k, WaitCall(pid, result))
    ensures var t := Next(k, WaitCall(pid, result)).p;
            t.pcbs[0].retvalue == 1 && t.zombies == [] && t.children[0] == [] && t.running == Ref(0)
            && t.memory == Store(k.p.memory, result, k.p.pcbs[1].returnValue)
            && Lists(t, 0, [], [], []) && t.freePcbs == [1] + k.p.freePcbs && t.freePtrs == k.p.freePtrs + 1
            && Next(k, WaitCall(pid, result)).x == k.x
  {
  }

  /** init starts another process, in the PCB just freed. */
  lemma SpawnAgain(k: Kern)
    requires Lists(k.p, 0, [], [], []) && |k.p.freePcbs| > 0 && k.p.freePcbs[0] == 1 && k.p.freePtrs > 0
    ensures Enabled(k, SpawnCall(0, 0))
    ensures var t := Next(k, SpawnCall(0, 0));
            Lists(t.p, 0, [1], [], []) && t.x == k.x.(lastFd := k.x.lastFd[1 := 0])
  {
  }

  /** init waits for process 1, which has not exited, and process 1 runs. */
  lemma WaitSwitches(k: Kern)
    requires Lists(k.p, 0, [1], [], []) && Two(k.p) && k.p.pcbs[1].status == Ready
    ensures Enabled(k, WaitCall(0, 0))
    ensures var t := Next(k, WaitCall(0, 0)).p;
            Lists(t, 1, [], [0], []) && Two(t) && t.pcbs[0].status == Waiting && t.pcbs[0].syscallNum == CALL_WAIT
            && t.pcbs[0].arg0 == 0
  {
  }

  /** Process 1 exits, and hands over to init. */
  lemma ExitHandsOver(k: Kern, value: int)
    requires Lists(k.p, 1, [], [0], []) && Two(k.p)
    requires k.p.pcbs[0].status == Waiting && k.p.pcbs[0].syscallNum == CALL_WAIT && k.p.pcbs[0].arg0 == 0
    ensures Enabled(k, ExitCall(value))
    ensures var t := Next(k, ExitCall(value)).p;
            Lists(t, 0, [], [], []) && t.freePcbs == [1] + k.p.freePcbs && t.freePtrs > 0
  {
    hide Signalled;
  }

  /** init starts process 1, which exits with 5; init waits for process 99, and is told that 1 has exited with 5. */
  lemma WaitForUnknownPid(k: Kern, result: int)
    requires Boot(k) && result != 0
    ensures var steps := [SpawnCall(0, 0), PreemptCall, ExitCall(5), WaitCall(99, result)];
            && Legal(k, steps)
            && var t := Run(k, steps).p;
               t.pcbs[0].retvalue == 1 && result in t.memory && t.memory[result] == 5 && t.zombies == []
  {
    hide Next, Enabled, Two, BootProcs, BootSems;
    SpawnFirst(k);
    var k1 := Next(k, SpawnCall(0, 0));
    Switch(k1, 0, 1);
    var k2 := Next(k1, PreemptCall);
    ExitToZombie(k2, 5);
    var k3 := Next(k2, ExitCall(5));
    WaitReaps(k3, 99, result);
    FirstStep(k3, WaitCall(99, result), []);
    FirstStep(k2, ExitCall(5), [WaitCall(99, result)]);
    FirstStep(k1, PreemptCall, [ExitCall(5), WaitCall(99, result)]);
    FirstStep(k, SpawnCall(0, 0), [PreemptCall, ExitCall(5), WaitCall(99, result)]);
  }

  // ---- an orphan

  lemma SpawnSecond(k: Kern)
    requires Lists(k.p, 1, [0], [], []) && Two(k.p)
    ensures Enabled(k, SpawnCall(0, 0))
    ensures var t := Next(k, SpawnCall(0, 0)).p; t.children[1] == [2] && t.running == Ref(1) && CanExit(t)
  {
  }

  /** init starts process 1, which starts process 2 and exits: process 2 is a child of init now, and still has
      process 1 as its parent. */
  lemma OrphanWithDeadParent(k: Kern)
    requires Boot(k)
    ensures var steps := [SpawnCall(0, 0), PreemptCall, SpawnCall(0, 0)];
            && Legal(k, steps)
            && var s := Run(k, steps).p;
               CanExit(s) && 2 in Exit(s).children[0] && Exit(s).pcbs[2].parent == Ref(1)
  {
    var start := [SpawnCall(0, 0), PreemptCall];
    TwoRunning(k);
    var k2 := Run(k, start);
    hide Next, Enabled, Boot, KernInv, Run, Legal;
    SpawnSecond(k2);
    NextKeepsInv(k2, SpawnCall(0, 0));
    RunAppend(k, start, SpawnCall(0, 0));
    var k3 := Next(k2, SpawnCall(0, 0));
    OrphanOf(k3);
  }

  lemma OrphanOf(k: Kern)
    requires KernInv(k) && CanExit(k.p) && k.p.running == Ref(1) && k.p.children[1] == [2] && k.p.init == 0
    ensures 2 in Exit(k.p).children[0] && Exit(k.p).pcbs[2].parent == Ref(1)
  {
    OrphanKeepsOldParent(k.p, WaiterBag(k.x));
  }

  lemma {:induction false} RunAppend(k: Kern, steps: seq<Step>, last: Step)
    requires Legal(k, steps) && Enabled(Run(k, steps), last)
    ensures Legal(k, steps + [last]) && Run(k, steps + [last]) == Next(Run(k, steps), last)
    decreases |steps|
  {
    hide Next, Enabled;
    if steps == [] {
      FirstStep(k, last, []);
    } else {
      RunAppend(Next(k, steps[0]), steps[1..], last);
      assert steps + [last] == [steps[0]] + (steps[1..] + [last]);
      FirstStep(k, steps[0], steps[1..] + [last]);
    }
  }

  // ---- a semaphore closed under its waiter

  /** Semaphore 3, in block 0, has count 0; PCB 0 and PCB 1 have it open as fd 0, with descriptors 0 and 1. */
  ghost predicate Shared(x: Sems, attached: seq<Block>, waiters: seq<Block>) {
    && x.semList == [0] && x.ids[0] == 3 && x.counts[0] == 0 && x.attached[0] == attached && x.waiters[0] == waiters
    && x.owned[0] == [0] && x.owned[1] == [1] && x.descs[0] == SemDesc(0, 0, 0) && x.descs[1] == SemDesc(1, 0, 0)
    && x.lastFd[0] == 1 && |x.freeDescs| > 0 && x.freeDescs[0] == 2
  }

  lemma CreateSemaphore(k: Kern)
    requires Boot(k)
    ensures Enabled(k, SemOpenCall(3, 1, 0))
    ensures var t := Next(k, SemOpenCall(3, 1, 0));
            && BootProcs(t.p) && t.x.semList == [0] && t.x.ids[0] == 3 && t.x.counts[0] == 0
            && t.x.attached[0] == [0] && t.x.waiters[0] == [] && t.x.owned[0] == [0] && t.x.owned[1] == []
            && t.x.descs[0] == SemDesc(0, 0, 0) && t.x.lastFd[0] == 1 && |t.x.freeDescs| > 1 && t.x.freeDescs[0] == 1
            && t.x.freeDescs[1] == 2
  {
    assert CreateSet(1) && !ExclSet(1);
  }

  lemma OpenShared(k: Kern)
    requires Lists(k.p, 1, [0], [], []) && Two(k.p)
    requires k.x.semList == [0] && k.x.ids[0] == 3 && k.x.counts[0] == 0 && k.x.attached[0] == [0]
    requires k.x.waiters[0] == []
    requires k.x.owned[0] == [0] && k.x.owned[1] == [] && k.x.descs[0] == SemDesc(0, 0, 0) && k.x.lastFd[0] == 1
    requires k.x.lastFd[1] == 0 && |k.x.freeDescs| > 1 && k.x.freeDescs[0] == 1 && k.x.freeDescs[1] == 2
    ensures Enabled(k, SemOpenCall(3, 0, 0))
    ensures var t := Next(k, SemOpenCall(3, 0, 0));
            Lists(t.p, 1, [0], [], []) && Two(t.p) && Shared(t.x, [0, 1], [])
            && t.p.pcbs[1].status == k.p.pcbs[1].status
  {
    assert !CreateSet(0);
    assert ById(k.x, [0], 3) == Ref(0);
  }

  lemma WaitBlocks(k: Kern)
    requires Lists(k.p, 1, [0], [], []) && Two(k.p) && Shared(k.x, [0, 1], [])
    ensures Enabled(k, SemWaitCall(0))
    ensures var t := Next(k, SemWaitCall(0));
            Lists(t.p, 0, [], [1], []) && Two(t.p) && Shared(t.x, [0], [1]) && t.p.pcbs[1].status == k.p.pcbs[1].status
  {
    var j := RecordCall(k, SemWaitCall(0));
    assert ByFd(j.x, [1], 0) == Ref(1);
    assert Remove([0, 1], 1) == [0];
  }

  /** init creates semaphore 3 with count 0 and starts process 1, which opens it and waits on it. It is blocked, and
      its status is Running. If init closes the semaphore now, that takes it away from process 1. */
  lemma BlockedProcessRuns(k: Kern)
    requires Boot(k)
    ensures var steps := [SemOpenCall(3, 1, 0), SpawnCall(0, 0), PreemptCall, SemOpenCall(3, 0, 0), SemWaitCall(0)];
            && Legal(k, steps)
            && var t := Run(k, steps);
               && Lists(t.p, 0, [], [1], []) && Shared(t.x, [0], [1]) && t.p.pcbs[1].status == Running
               && !CloseSafe(t, 0) && KernInv(t)
  {
    hide Next, Enabled, Two, BootProcs, BootSems, KernInv, Shared;
    CreateSemaphore(k);
    var k1 := Next(k, SemOpenCall(3, 1, 0));
    SpawnFirst(k1);
    var k2 := Next(k1, SpawnCall(0, 0));
    Switch(k2, 0, 1);
    var k3 := Next(k2, PreemptCall);
    OpenShared(k3);
    var k4 := Next(k3, SemOpenCall(3, 0, 0));
    WaitBlocks(k4);
    FirstStep(k4, SemWaitCall(0), []);
    FirstStep(k3, SemOpenCall(3, 0, 0), [SemWaitCall(0)]);
    FirstStep(k2, PreemptCall, [SemOpenCall(3, 0, 0), SemWaitCall(0)]);
    FirstStep(k1, SpawnCall(0, 0), [PreemptCall, SemOpenCall(3, 0, 0), SemWaitCall(0)]);
    FirstStep(k, SemOpenCall(3, 1, 0), [SpawnCall(0, 0), PreemptCall, SemOpenCall(3, 0, 0), SemWaitCall(0)]);
    Reachable(k, [SemOpenCall(3, 1, 0), SpawnCall(0, 0), PreemptCall, SemOpenCall(3, 0, 0), SemWaitCall(0)]);
    CloseUnsafe(Next(k4, SemWaitCall(0)));
  }

  lemma CloseUnsafe(k: Kern)
    requires Lists(k.p, 0, [], [1], []) && Shared(k.x, [0], [1])
    ensures !CloseSafe(k, 0)
  {
    assert ByFd(k.x, [0], 0) == Ref(0);
  }

  /** The state after that run. */
  ghost function AfterBlocking(k: Kern): (t: Kern)
    requires Boot(k)
    ensures Lists(t.p, 0, [], [1], []) && Shared(t.x, [0], [1])
  {
    hide Boot, Legal, KernInv;
    BlockedProcessRuns(k);
    Run(k, [SemOpenCall(3, 1, 0), SpawnCall(0, 0), PreemptCall, SemOpenCall(3, 0, 0), SemWaitCall(0)])
  }

  /** There init does close it, creates semaphore 4 in its place, and posts that: process 1, which never opened
      semaphore 4, comes out of its wait for semaphore 3. */
  lemma StrandedWaiterInherited(k: Kern)
    requires Boot(k)
    ensures var k1 := SemClose(AfterBlocking(k), 0); var k2 := SemOpen(k1, 4, 1, 0); var k3 := SemPost(k2, 0);
            && k1.x.semList == [] && k1.p.waiting == [1]
            && k2.x.semList == [0] && k2.x.ids[0] == 4 && k2.x.waiters[0] == [1]
            && k3.p.waiting == [] && k3.p.ready == [1] && k3.x.waiters[0] == []
  {
    hide SemClose, SemOpen, SemPost, Boot, AfterBlocking;
    Strands(AfterBlocking(k));
    Inherits(SemClose(AfterBlocking(k), 0));
  }

  /** Process 1, blocked, waits through descriptor 1 on a semaphore block that is the next to be given out. */
  ghost predicate Stranded(k: Kern) {
    && Lists(k.p, 0, [], [1], []) && k.x.semList == [] && |k.x.freeSems| > 0 && k.x.freeSems[0] == 0
    && k.x.waiters[0] == [1] && k.x.descs[1] == SemDesc(1, 0, 0)
    && k.x.owned[0] == [] && k.x.lastFd[0] == 0 && |k.x.freeDescs| > 0 && k.x.freeDescs[0] == 0
  }

  lemma Strands(k: Kern)
    requires Lists(k.p, 0, [], [1], []) && Shared(k.x, [0], [1])
    ensures Stranded(SemClose(k, 0))
  {
    assert ByFd(k.x, [0], 0) == Ref(0);
  }

  lemma Inherits(k: Kern)
    requires Stranded(k)
    ensures var k2 := SemOpen(k, 4, 1, 0); var k3 := SemPost(k2, 0);
            && k2.x.semList == [0] && k2.x.ids[0] == 4 && k2.x.waiters[0] == [1]
            && k3.p.waiting == [] && k3.p.ready == [1] && k3.x.waiters[0] == []
  {
    assert CreateSet(1) && !ExclSet(1);
    var k2 := SemOpen(k, 4, 1, 0);
    assert k2.x.owned[0] == [0] && k2.x.descs[0] == SemDesc(0, 0, 0);
    assert ByFd(k2.x, [0], 0) == Ref(0);
  }

  // ---- a negative count

  /** A count of 2^31 is accepted, and makes a semaphore with a negative count. */
  lemma NegativeCount(k: Kern)
    requires Boot(k)
    ensures var t := SemOpen(k, 3, 1, 0x8000_0000);
            t.p.pcbs[0].retvalue == 0 && t.x.semList == [0] && t.x.counts[0] == -0x8000_0000
  {
    assert CreateSet(1) && !ExclSet(1);
  }

  // ---- nobody left

  /** init, alone, goes to sleep: nobody runs, and no step is possible any more. */
  lemma AsleepForGood(k: Kern)
    requires Boot(k)
    ensures Legal(k, [SleepCall(1)])
    ensures var t := Run(k, [SleepCall(1)]);
            t.p.running.Null? && t.p.waiting == [0] && forall step :: !Enabled(t, step)
  {
    Reachable(k, []);
    hide KernInv;
    SleepIdlesIff(k, 1);
    FirstStep(k, SleepCall(1), []);
    assert [SleepCall(1)] + [] == [SleepCall(1)];
    SleepAlone(k);
  }

  lemma SleepAlone(k: Kern)
    requires Boot(k)
    ensures Next(k, SleepCall(1)).p.waiting == [0]
  {
  }
}
