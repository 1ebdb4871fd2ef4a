/** The process state of the kernel, and what each handler makes of it.
    Lists hold PCB addresses (buffer indices) in list order. */
module Processes {
  import opened Bags
  import opened Timers

  const CALL_PREEMPT := 1
  const CALL_FORK := 2
  const CALL_WAIT := 3
  const CALL_EXIT := 4
  const CALL_SPAWN := 5
  const CALL_SLEEP := 6
  const CALL_OPEN_RESOURCE := 7
  const CALL_CLOSE_RESOURCE := 8
  const CALL_DESTROY_RESOURCE := 9
  const CALL_SEMOPEN := 11
  const CALL_SEMCLOSE := 12
  const CALL_SEMWAIT := 13
  const CALL_SEMPOST := 14
  const CALL_MQOPEN := 15
  const CALL_MQCLOSE := 16
  const CALL_MQREAD := 17
  const CALL_MQWRITE := 18
  const CALL_MQUNLINK := 19

  const EWAIT := -5
  const ESLEEP := -7

  const SIGCHLD: bv32 := 0x1
  const SIGHUP: bv32 := 0x2
  const ALL_SIGNALS: bv32 := 0xFFFF_FFFF

  /** The flag bits DSOS_CREATE, 0x1, and DSOS_EXCL, 0x4, of the calls that open something. */
  predicate CreateSet(flags: int) { flags % 2 == 1 }
  predicate ExclSet(flags: int) { (flags / 4) % 2 == 1 }

  datatype Status = Invalid | Created | Running | Ready | Waiting | Suspended | Zombie

  /** A pointer to a block, possibly null. */
  datatype BlockRef = Null | Ref(p: Block)

  datatype Pcb = Pcb(
    pid: int, returnValue: int, status: Status, signals: bv32, signalsMask: bv32, parent: BlockRef,
    syscallNum: int, arg0: int, arg1: int, retvalue: int, timer: BlockRef)

  const ZEROED := Pcb(0, 0, Created, 0, 0, Null, 0, 0, 0, 0, Null)

  /** The PCB buffer, and the children list of each PCB in it. */
  type PcbTable = t: seq<Pcb> | |t| == MAX_NUM_PROCESSES
    witness seq(MAX_NUM_PROCESSES, _ => ZEROED)
  type ListTable = t: seq<seq<Block>> | |t| == MAX_NUM_PROCESSES
    witness seq(MAX_NUM_PROCESSES, _ => [])

  /** An exit status on its way: whose, what, and the pid of the parent it is for. */
  datatype ExitRecord = ExitRecord(pid: int, value: int, parentPid: int)

  /** freePtrs counts the free PCBPtr blocks; memory holds the ints user pointers refer to; exited and
      delivered record the history of exit statuses. */
  datatype Proc = Proc(
    running: BlockRef, ready: seq<Block>, waiting: seq<Block>, zombies: seq<Block>, timers: seq<Timer>,
    pcbs: PcbTable, children: ListTable,
    freePcbs: seq<Block>, freePtrs: nat, freeTimers: seq<Block>,
    init: Block, lastPid: int, time: int, memory: map<int, int>,
    exited: seq<ExitRecord>, delivered: seq<ExitRecord>)

  /** List_insert at the end, and the recording of a call by disastrOS_syscall. */
  function Trap(s: Proc, num: int, args: seq<int>): Proc
    requires s.running.Ref?
  {
    var r := s.running.p;
    var pcb := s.pcbs[r];
    s.(pcbs := s.pcbs[r := pcb.(syscallNum := num,
                                arg0 := if |args| > 0 then args[0] else pcb.arg0,
                                arg1 := if |args| > 1 then args[1] else pcb.arg1)])
  }

  function Return(s: Proc, value: int): Proc
    requires s.running.Ref?
  {
    var r := s.running.p;
    s.(pcbs := s.pcbs[r := s.pcbs[r].(retvalue := value)])
  }

  /** *result = value, unless the pointer is null. */
  function Store(memory: map<int, int>, result: int, value: int): map<int, int> {
    if result != 0 then memory[result := value] else memory
  }

  /** internal_spawn; the source dereferences the blocks it gets, so both pools must have one. */
  predicate CanSpawn(s: Proc) {
    s.running.Ref? && s.freePcbs != [] && s.freePtrs > 0
  }

  function Spawn(s: Proc): Proc
    requires CanSpawn(s)
  {
    var r, c := s.running.p, s.freePcbs[0];
    var pcb := s.pcbs[c].(pid := s.lastPid, returnValue := 0, status := Ready, signals := 0,
                          signalsMask := ALL_SIGNALS, parent := Ref(r), timer := Null);
    Return(s.(freePcbs := s.freePcbs[1..], freePtrs := s.freePtrs - 1, lastPid := s.lastPid + 1,
              pcbs := s.pcbs[c := pcb],
              children := s.children[c := []][r := s.children[r] + [c]],
              ready := s.ready + [c]),
           s.lastPid)
  }

  /** internal_sleep puts the caller to sleep: it has no timer yet, and there is a timer block. */
  predicate SleepBlocks(s: Proc)
    requires s.running.Ref?
  {
    s.pcbs[s.running.p].timer.Null? && s.freeTimers != []
  }

  /** internal_sleep */
  function Sleep(s: Proc): Proc
    requires s.running.Ref?
  {
    var r := s.running.p;
    if !SleepBlocks(s) then Return(s, ESLEEP)
    else
      var timer := Timer(s.freeTimers[0], s.time + s.pcbs[r].arg0, r);
      s.(freeTimers := s.freeTimers[1..], timers := Insert(s.timers, timer),
         pcbs := s.pcbs[r := s.pcbs[r].(status := Waiting)],
         waiting := s.waiting + [r],
         running := if s.ready != [] then Ref(s.ready[0]) else Null,
         ready := if s.ready != [] then s.ready[1..] else s.ready)
  }

  /** The child the scan of internal_wait stops at; the last one when it does not stop. */
  function Awaited(s: Proc, children: seq<Block>, pid: int): (i: nat)
    requires children != []
    ensures i < |children|
  {
    if Matches(s, children[0], pid) || |children| == 1 then 0
    else 1 + Awaited(s, children[1..], pid)
  }

  predicate Matches(s: Proc, c: Block, pid: int) {
    if pid == 0 then s.pcbs[c].status == Zombie else s.pcbs[c].pid == pid
  }

  predicate WaitReturns(s: Proc)
    requires s.running.Ref?
  {
    var r := s.running.p;
    s.children[r] == [] || s.pcbs[s.children[r][Awaited(s, s.children[r], s.pcbs[r].arg0)]].status == Zombie
  }

  /** internal_wait; when it has to block, some process must be ready. */
  function Wait(s: Proc): Proc
    requires s.running.Ref? && (WaitReturns(s) || s.ready != [])
  {
    var r := s.running.p;
    if s.children[r] == [] then Return(s, EWAIT)
    else
      var i := Awaited(s, s.children[r], s.pcbs[r].arg0);
      var z := s.children[r][i];
      if s.pcbs[z].status == Zombie then Reap(s, i)
      else s.(pcbs := s.pcbs[r := s.pcbs[r].(status := Waiting)],
              waiting := s.waiting + [r], running := Ref(s.ready[0]), ready := s.ready[1..])
  }

  /** The exit status of zombie z, as a record. */
  function Record(s: Proc, z: Block): ExitRecord {
    ExitRecord(s.pcbs[z].pid, s.pcbs[z].returnValue,
               if s.pcbs[z].parent.Ref? then s.pcbs[s.pcbs[z].parent.p].pid else -1)
  }

  /** The i-th child of the running process, a zombie, is unlinked and freed, its status stored. */
  function Bury(s: Proc, i: nat): Proc
    requires s.running.Ref? && i < |s.children[s.running.p]|
  {
    var r := s.running.p;
    var z := s.children[r][i];
    s.(children := s.children[r := s.children[r][..i] + s.children[r][i + 1..]],
       freePtrs := s.freePtrs + 1,
       zombies := Remove(s.zombies, z),
       memory := Store(s.memory, s.pcbs[r].arg1, s.pcbs[z].returnValue),
       freePcbs := [z] + s.freePcbs,
       delivered := s.delivered + [ExitRecord(s.pcbs[z].pid, s.pcbs[z].returnValue, s.pcbs[r].pid)])
  }

  function Reap(s: Proc, i: nat): Proc
    requires s.running.Ref? && i < |s.children[s.running.p]|
  {
    Return(Bury(s, i), s.pcbs[s.children[s.running.p][i]].pid)
  }

  /** A signal is added to those pending, unless masked. */
  function Signalled(pcb: Pcb, signal: bv32): (r: Pcb)
    ensures r == pcb.(signals := r.signals)
  {
    pcb.(signals := AddSignal(pcb.signals, signal, pcb.signalsMask))
  }

  function AddSignal(signals: bv32, signal: bv32, mask: bv32): bv32 {
    signals | (signal & mask)
  }

  /** The first child moves to the end of init's children and gets SIGHUP, unless masked. */
  function ReparentFirst(s: Proc): Proc
    requires s.running.Ref? && s.running.p != s.init && s.children[s.running.p] != []
  {
    var r := s.running.p;
    var c := s.children[r][0];
    s.(children := s.children[r := s.children[r][1..]][s.init := s.children[s.init] + [c]],
       pcbs := s.pcbs[c := Signalled(s.pcbs[c], SIGHUP)])
  }

  /** The reparenting loop of internal_exit: the children move to init, in order, and get SIGHUP. */
  function Reparent(s: Proc): (t: Proc)
    requires s.running.Ref? && s.running.p != s.init
    ensures t == s.(children := t.children, pcbs := t.pcbs)
    ensures forall p: Block :: t.pcbs[p] == s.pcbs[p].(signals := t.pcbs[p].signals)
    decreases |s.children[s.running.p]|
  {
    if s.children[s.running.p] == [] then s else Reparent(ReparentFirst(s))
  }

  /** A signal for process p. */
  function Signal(pcbs: PcbTable, p: Block, signal: bv32): PcbTable {
    pcbs[p := Signalled(pcbs[p], signal)]
  }

  /** The dying process becomes a zombie and its parent gets SIGCHLD. */
  function Die(s: Proc): Proc
    requires s.running.Ref? && s.pcbs[s.running.p].parent.Ref?
  {
    var r := s.running.p;
    var q := s.pcbs[r].parent.p;
    var dead := s.pcbs[r := s.pcbs[r].(returnValue := s.pcbs[r].arg0, status := Zombie)];
    s.(pcbs := Signal(dead, q, SIGCHLD),
       zombies := s.zombies + [r],
       exited := s.exited + [ExitRecord(s.pcbs[r].pid, s.pcbs[r].arg0, s.pcbs[q].pid)])
  }

  /** Is q blocked in a wait that the death of r ends? */
  predicate AwaitedBy(s: Proc, r: Block, q: Block) {
    && s.pcbs[q].status == Waiting
    && s.pcbs[q].syscallNum == CALL_WAIT
    && (s.pcbs[q].arg0 == 0 || s.pcbs[q].arg0 == s.pcbs[r].pid)
  }

  function RemovePid(s: Proc, children: seq<Block>, pid: int): seq<Block> {
    if children == [] then []
    else if s.pcbs[children[0]].pid == pid then children[1..]
    else [children[0]] + RemovePid(s, children[1..], pid)
  }

  function NotOf(ts: seq<Timer>, p: Block): seq<Timer> {
    if ts == [] then []
    else if ts[0].pcb == p then NotOf(ts[1..], p)
    else [ts[0]] + NotOf(ts[1..], p)
  }

  function BlocksOf(ts: seq<Timer>, p: Block): seq<Block> {
    if ts == [] then []
    else if ts[0].pcb == p then BlocksOf(ts[1..], p) + [ts[0].block]
    else BlocksOf(ts[1..], p)
  }

  /** The hand-off: the waiting parent takes the status, the dead process is freed, the parent runs. */
  function HandOff(s: Proc): Proc
    requires s.running.Ref? && s.pcbs[s.running.p].parent.Ref?
  {
    var r := s.running.p;
    var q := s.pcbs[r].parent.p;
    s.(waiting := Remove(s.waiting, q),
       children := s.children[q := RemovePid(s, s.children[q], s.pcbs[r].pid)],
       pcbs := s.pcbs[q := s.pcbs[q].(status := Running, retvalue := s.pcbs[r].pid)],
       memory := Store(s.memory, s.pcbs[q].arg1, s.pcbs[r].returnValue),
       timers := NotOf(s.timers, r), freeTimers := BlocksOf(s.timers, r) + s.freeTimers,
       zombies := Remove(s.zombies, r), freePcbs := [r] + s.freePcbs,
       running := Ref(q),
       delivered := s.delivered + [ExitRecord(s.pcbs[r].pid, s.pcbs[r].returnValue, s.pcbs[q].pid)])
  }

  /** The first ready process runs. */
  function RunNext(s: Proc): Proc
    requires s.ready != []
  {
    var n := s.ready[0];
    s.(running := Ref(n), ready := s.ready[1..], pcbs := s.pcbs[n := s.pcbs[n].(status := Running)])
  }

  /** internal_exit needs a parent, and someone to run next. */
  predicate CanExit(s: Proc) {
    && s.running.Ref? && s.running.p != s.init && s.pcbs[s.running.p].parent.Ref?
    && var r, q := s.running.p, s.pcbs[s.running.p].parent.p;
    s.ready != [] || (q != r && AwaitedBy(s, r, q))
  }

  function Exit(s: Proc): Proc
    requires CanExit(s)
  {
    var d := Die(Reparent(s));
    if AwaitedBy(d, s.running.p, s.pcbs[s.running.p].parent.p) then HandOff(d) else RunNext(d)
  }

  /** One turn of the wake-up loop of internal_schedule, the n-th: the process of the first timer
      goes behind the n processes woken before it, ahead of the rest of the ready list. */
  function WakeFirst(s: Proc, n: nat): Proc
    requires s.timers != [] && n <= |s.ready|
  {
    var p := s.timers[0].pcb;
    s.(waiting := Remove(s.waiting, p),
       pcbs := s.pcbs[p := s.pcbs[p].(status := Ready, timer := Null)],
       ready := s.ready[..n] + [p] + s.ready[n..],
       timers := s.timers[1..], freeTimers := [s.timers[0].block] + s.freeTimers)
  }

  function WakeDue(s: Proc, n: nat): (t: Proc)
    requires n <= |s.ready|
    ensures t.running == s.running
    decreases |s.timers|
  {
    if s.timers != [] && s.time >= s.timers[0].time then WakeDue(WakeFirst(s, n), n + 1) else s
  }

  /** The head of the ready list runs, the running process goes to its tail. */
  function Rotate(s: Proc): Proc
    requires s.running.Ref?
  {
    if s.ready == [] then s
    else
      var r, n := s.running.p, s.ready[0];
      s.(ready := s.ready[1..] + [r], running := Ref(n),
         pcbs := s.pcbs[r := s.pcbs[r].(status := Ready)][n := s.pcbs[n].(status := Running)])
  }

  /** internal_schedule */
  function Schedule(s: Proc): Proc
    requires s.running.Ref?
  {
    Rotate(WakeDue(s, 0))
  }

  /** timerInterrupt */
  function Tick(s: Proc): Proc
    requires s.running.Ref?
  {
    Schedule(s.(time := s.time + 1))
  }

  /** What semWait does to the processes when it blocks, and semPost when it wakes p. */
  function BlockOnSemaphore(s: Proc): Proc
    requires s.running.Ref? && s.ready != []
  {
    s.(waiting := s.waiting + [s.running.p], running := Ref(s.ready[0]), ready := s.ready[1..])
  }

  function WakeFromSemaphore(s: Proc, p: Block): Proc {
    s.(waiting := Remove(s.waiting, p), ready := s.ready + [p])
  }
}
