/** What every handler keeps of the process state. `sw` is the bag of PCBs on semaphore wait lists. */
module ProcessLaws {
  import opened Bags
  import opened Timers
  import opened Processes

  ghost function RunBag(running: BlockRef): multiset<Block> {
    if running.Ref? then multiset{running.p} else multiset{}
  }

  ghost function PlaceBag(s: Proc): multiset<Block> {
    multiset(s.freePcbs) + RunBag(s.running) + multiset(s.ready) + multiset(s.waiting) + multiset(s.zombies)
  }

  /** Every PCB block is in exactly one place, once: free, running, ready, waiting or zombie. */
  ghost predicate Placed(s: Proc) {
    Exactly(PlaceBag(s), MAX_NUM_PROCESSES)
  }

  ghost function KinBag(s: Proc): multiset<Block> {
    multiset(s.freePcbs) + multiset{s.init} + Sum(s.children)
  }

  /** Every PCB block is free, init, or in exactly one children list, that of its parent; free blocks
      and zombies have no children. */
  ghost predicate Kin(s: Proc) {
    && Exactly(KinBag(s), MAX_NUM_PROCESSES)
    && (forall p: Block, c :: c in s.children[p] ==> s.pcbs[c].parent == Ref(p))
    && (forall p :: p in s.freePcbs || p in s.zombies ==> s.children[p] == [])
    && s.init !in s.zombies
  }

  ghost function TimerBag(s: Proc): multiset<Block> {
    multiset(s.freeTimers) + multiset(TimerBlocks(s.timers))
  }

  /** Timers are ordered, and each timer block is free or in the list, once. */
  ghost predicate TimersOk(s: Proc) {
    && Sorted(s.timers)
    && Exactly(TimerBag(s), MAX_NUM_PROCESSES)
  }

  /** How a waiting process got there, told by its status and its last system call. */
  ghost predicate WaitsFor(pcb: Pcb, sleeping: bool, onSemaphore: bool) {
    if sleeping then pcb.status == Waiting && pcb.syscallNum == CALL_SLEEP
    else if onSemaphore then pcb.status in {Running, Ready} && pcb.syscallNum == CALL_SEMWAIT
    else pcb.status == Waiting && pcb.syscallNum == CALL_WAIT
  }

  /** The waiting list is made of the sleepers, one timer each, the semaphore waiters, one wait-list
      entry each, and the callers of wait. */
  ghost predicate Waiters(s: Proc, sw: multiset<Block>) {
    && multiset(Pcbs(s.timers)) + sw <= multiset(s.waiting)
    && forall p :: p in s.waiting ==> WaitsFor(s.pcbs[p], p in Pcbs(s.timers), p in sw)
  }

  /** What the status field says of the places, and that no PCB's timer field is ever set. */
  ghost predicate Statuses(s: Proc) {
    && (forall p :: p in s.zombies ==> s.pcbs[p].status == Zombie)
    && (forall p :: p in s.ready ==> s.pcbs[p].status in {Running, Ready})
    && (s.running.Ref? ==> s.pcbs[s.running.p].status in {Running, Ready})
    && (forall p: Block :: s.pcbs[p].timer == Null)
  }

  /** The pids of PCBs in use are distinct, and none of them has been given out later than lastPid. */
  ghost predicate Pids(s: Proc) {
    && (forall p: Block, q: Block :: p !in s.freePcbs && q !in s.freePcbs && p != q ==> s.pcbs[p].pid != s.pcbs[q].pid)
    && (forall p: Block :: p !in s.freePcbs ==> s.pcbs[p].pid < s.lastPid)
  }

  function Records(s: Proc, zombies: seq<Block>): (r: seq<ExitRecord>)
    ensures |r| == |zombies|
  {
    seq(|zombies|, i requires 0 <= i < |zombies| => Record(s, zombies[i]))
  }

  /** Every exit status ever passed is either delivered, to the right parent, or that of a zombie: never
      both, never twice. */
  ghost predicate ExitsAccounted(s: Proc) {
    && multiset(s.exited) == multiset(s.delivered) + multiset(Records(s, s.zombies))
    && ExitPids(s)
  }

  /** No pid exits twice, and none of those that exited belongs to a live process. */
  ghost predicate ExitPids(s: Proc) {
    && (forall i, j :: 0 <= i < j < |s.exited| ==> s.exited[i].pid != s.exited[j].pid)
    && (forall x :: x in s.exited ==> x.pid < s.lastPid)
    && (forall p: Block, x :: p !in s.freePcbs && p !in s.zombies && x in s.exited ==> s.pcbs[p].pid != x.pid)
  }

  /** Nobody sleeps in wait over a zombie that would end the wait. */
  ghost predicate NoLostWakeup(s: Proc) {
    forall p, c :: p in s.waiting && c in s.children[p] && c in s.zombies ==> !AwaitedBy(s, c, p)
  }

  ghost predicate Inv(s: Proc, sw: multiset<Block>) {
    && Placed(s)
    && Kin(s)
    && TimersOk(s)
    && Waiters(s, sw)
    && Statuses(s)
    && Pids(s)
    && ExitsAccounted(s)
    && NoLostWakeup(s)
  }

  // ---- flags

  /** DSOS_CREATE is the lowest bit of the flags and DSOS_EXCL the third, whatever the others. */
  lemma FlagBits(create: bool, read: bool, excl: bool, rest: int)
    ensures var flags := (if create then 0x1 else 0) + (if read then 0x2 else 0) + (if excl then 0x4 else 0) + 8 * rest;
            CreateSet(flags) == create && ExclSet(flags) == excl
  {
    var low := (if create then 1 else 0) + (if read then 2 else 0);
    var high := (if excl then 1 else 0) + 2 * rest;
    LowestBit(create, (if read then 1 else 0) + 2 * high);
    Shifted(low, high);
    LowestBit(excl, rest);
  }

  lemma LowestBit(bit: bool, rest: int)
    ensures ((if bit then 1 else 0) + 2 * rest) % 2 == 1 <==> bit
  {
  }

  lemma Shifted(low: int, high: int)
    requires 0 <= low < 4
    ensures (low + 4 * high) / 4 == high
  {
  }

  // ---- signals

  /** A signal, which is one bit, is pending afterwards exactly when it was before or the mask lets it in; the other
      bits are as they were. */
  predicate SignalAdded(before: bv32, mask: bv32, after: bv32, signal: bv32) {
    && (after & signal != 0 <==> before & signal != 0 || mask & signal != 0)
    && after & !signal == before & !signal
  }

  predicate GotSignal(before: Pcb, after: Pcb, signal: bv32) {
    SignalAdded(before.signals, before.signalsMask, after.signals, signal)
  }

  lemma SignalledGets(pcb: Pcb, signal: bv32)
    requires signal == SIGHUP || signal == SIGCHLD
    ensures GotSignal(pcb, Signalled(pcb, signal), signal)
  {
  }

  /** What is said of the signals of two PCBs holds of two others with the same. */
  lemma GotSameSignals(u: Pcb, a: Pcb, before: Pcb, after: Pcb, signal: bv32)
    requires u.signals == before.signals && u.signalsMask == before.signalsMask && a.signals == after.signals
    requires GotSignal(u, a, signal)
    ensures GotSignal(before, after, signal)
  {
    hide SignalAdded;
  }

  // ---- what Placed means for single processes

  lemma OnePlace(s: Proc, p: Block)
    requires Placed(s)
    ensures multiset(s.freePcbs)[p] + RunBag(s.running)[p] + multiset(s.ready)[p] + multiset(s.waiting)[p]
            + multiset(s.zombies)[p] == 1
  {
    assert PlaceBag(s)[p] == 1;
  }

  /** The places do not overlap. */
  ghost predicate Apart(s: Proc) {
    && (forall p :: p in s.ready ==> p !in s.waiting && p !in s.zombies && p !in s.freePcbs && Ref(p) != s.running)
    && (forall p :: p in s.waiting ==> p !in s.zombies && p !in s.freePcbs && Ref(p) != s.running)
    && (forall p :: p in s.zombies ==> p !in s.freePcbs && Ref(p) != s.running)
    && (forall p :: p in s.freePcbs ==> Ref(p) != s.running)
  }

  lemma PlacesApart(s: Proc)
    requires Placed(s)
    ensures Apart(s)
  {
    forall p: Block
      ensures p in s.ready ==> p !in s.waiting && p !in s.zombies && p !in s.freePcbs && Ref(p) != s.running
      ensures p in s.waiting ==> p !in s.zombies && p !in s.freePcbs && Ref(p) != s.running
      ensures p in s.zombies ==> p !in s.freePcbs && Ref(p) != s.running
      ensures p in s.freePcbs ==> Ref(p) != s.running
    {
      OnePlace(s, p);
      assert p in s.ready <==> multiset(s.ready)[p] > 0;
      assert p in s.waiting <==> multiset(s.waiting)[p] > 0;
      assert p in s.zombies <==> multiset(s.zombies)[p] > 0;
      assert p in s.freePcbs <==> multiset(s.freePcbs)[p] > 0;
    }
  }

  lemma WithoutDuplicates(s: Proc)
    requires Placed(s)
    ensures NoDuplicates(s.ready) && NoDuplicates(s.waiting) && NoDuplicates(s.zombies) && NoDuplicates(s.freePcbs)
  {
    forall x: Block
      ensures multiset(s.ready)[x] <= 1 && multiset(s.waiting)[x] <= 1
      ensures multiset(s.zombies)[x] <= 1 && multiset(s.freePcbs)[x] <= 1
    {
      assert PlaceBag(s)[x] <= 1;
    }
    BagNoDuplicates(s.ready);
    BagNoDuplicates(s.waiting);
    BagNoDuplicates(s.zombies);
    BagNoDuplicates(s.freePcbs);
  }
}
