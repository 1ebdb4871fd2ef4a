/** Each process handler keeps the laws of the process state. */
module ProcessSteps {
  import opened Bags
  import opened Timers
  import opened Processes
  import opened ProcessLaws

  // ---- handlers that only move processes about

  /** t has the same families, pids and exit statuses as s. */
  ghost predicate SameIdentities(s: Proc, t: Proc) {
    && t.children == s.children && t.freePcbs == s.freePcbs && t.zombies == s.zombies && t.init == s.init
    && t.lastPid == s.lastPid && t.exited == s.exited && t.delivered == s.delivered
    && forall p: Block :: SameIdentity(s.pcbs[p], t.pcbs[p])
  }

  ghost predicate SameIdentity(a: Pcb, b: Pcb) {
    b.pid == a.pid && b.returnValue == a.returnValue && b.parent == a.parent
  }

  lemma SameRecords(s: Proc, t: Proc, zs: seq<Block>)
    requires forall p: Block :: SameIdentity(s.pcbs[p], t.pcbs[p])
    ensures Records(t, zs) == Records(s, zs)
  {
  }

  lemma IdentitiesKeep(s: Proc, t: Proc)
    requires Kin(s) && Pids(s) && ExitsAccounted(s) && SameIdentities(s, t)
    ensures Kin(t) && Pids(t) && ExitsAccounted(t)
  {
    assert KinBag(t) == KinBag(s);
    SameRecords(s, t, s.zombies);
    forall p: Block, c | c in t.children[p]
      ensures t.pcbs[c].parent == Ref(p)
    {
      assert c in s.children[p];
    }
    forall p: Block, q: Block | p !in t.freePcbs && q !in t.freePcbs && p != q
      ensures t.pcbs[p].pid != t.pcbs[q].pid
    {
      assert s.pcbs[p].pid != s.pcbs[q].pid;
    }
  }

  // ---- registers

  /** t is s, but for signals and return values, the recorded call of the running process, and memory. */
  ghost predicate SameButRegisters(s: Proc, t: Proc) {
    && t == s.(pcbs := t.pcbs, memory := t.memory)
    && forall p: Block :: SameRegister(s.pcbs[p], t.pcbs[p], Ref(p) == s.running)
  }

  ghost predicate SameRegister(a: Pcb, b: Pcb, running: bool) {
    && SameIdentity(a, b)
    && b.status == a.status && b.signalsMask == a.signalsMask && b.timer == a.timer
    && (!running ==> b.syscallNum == a.syscallNum && b.arg0 == a.arg0 && b.arg1 == a.arg1)
  }

  lemma RegistersKeepWaiters(s: Proc, t: Proc, sw: multiset<Block>)
    requires Placed(s) && Waiters(s, sw) && Statuses(s) && SameButRegisters(s, t)
    ensures Waiters(t, sw) && Statuses(t)
  {
    PlacesApart(s);
  }

  lemma RegistersKeepWakeups(s: Proc, t: Proc)
    requires Placed(s) && NoLostWakeup(s) && SameButRegisters(s, t)
    ensures NoLostWakeup(t)
  {
    PlacesApart(s);
    forall p, c | p in t.waiting && c in t.children[p] && c in t.zombies
      ensures !AwaitedBy(t, c, p)
    {
      assert !AwaitedBy(s, c, p);
    }
  }

  lemma RegistersDoNotMatter(s: Proc, t: Proc, sw: multiset<Block>)
    requires Inv(s, sw) && SameButRegisters(s, t)
    ensures Inv(t, sw)
  {
    assert PlaceBag(t) == PlaceBag(s);
    IdentitiesKeep(s, t);
    RegistersKeepWaiters(s, t, sw);
    RegistersKeepWakeups(s, t);
  }

  lemma TrapKeepsInv(s: Proc, sw: multiset<Block>, num: int, args: seq<int>)
    requires Inv(s, sw) && s.running.Ref?
    ensures Inv(Trap(s, num, args), sw)
  {
    RegistersDoNotMatter(s, Trap(s, num, args), sw);
  }

  lemma ReturnKeepsInv(s: Proc, sw: multiset<Block>, value: int)
    requires Inv(s, sw) && s.running.Ref?
    ensures Inv(Return(s, value), sw)
  {
    RegistersDoNotMatter(s, Return(s, value), sw);
  }

  // ---- sleep

  lemma PcbsConcat(a: seq<Timer>, b: seq<Timer>)
    ensures Pcbs(a + b) == Pcbs(a) + Pcbs(b)
  {
  }

  lemma TimerBlocksConcat(a: seq<Timer>, b: seq<Timer>)
    ensures TimerBlocks(a + b) == TimerBlocks(a) + TimerBlocks(b)
  {
  }

  /** A new timer, seen as a bag of PCBs and as a bag of timer blocks. */
  lemma InsertPcbBag(ts: seq<Timer>, x: Timer)
    ensures multiset(Pcbs(Insert(ts, x))) == multiset(Pcbs(ts)) + multiset{x.pcb}
  {
    var k := InsertSplits(ts, x);
    assert ts == ts[..k] + ts[k..] && Pcbs([x]) == [x.pcb];
    PcbsConcat(ts[..k], ts[k..]);
    PcbsConcat(ts[..k] + [x], ts[k..]);
    PcbsConcat(ts[..k], [x]);
  }

  lemma InsertBlockBag(ts: seq<Timer>, x: Timer)
    ensures multiset(TimerBlocks(Insert(ts, x))) == multiset(TimerBlocks(ts)) + multiset{x.block}
  {
    var k := InsertSplits(ts, x);
    assert ts == ts[..k] + ts[k..] && TimerBlocks([x]) == [x.block];
    TimerBlocksConcat(ts[..k], ts[k..]);
    TimerBlocksConcat(ts[..k] + [x], ts[k..]);
    TimerBlocksConcat(ts[..k], [x]);
  }

  /** The running process goes to the end of the waiting list and the first ready one, if any, runs. */
  ghost predicate SwitchedOut(s: Proc, t: Proc) {
    && s.running.Ref?
    && t.waiting == s.waiting + [s.running.p] && t.zombies == s.zombies && t.freePcbs == s.freePcbs
    && t.running == (if s.ready == [] then Null else Ref(s.ready[0]))
    && t.ready == if s.ready == [] then [] else s.ready[1..]
  }

  lemma SwitchKeepsPlaces(s: Proc, t: Proc)
    requires Placed(s) && SwitchedOut(s, t)
    ensures Placed(t)
  {
    if s.ready != [] {
      PopFront(s.ready);
    }
    assert PlaceBag(t) == PlaceBag(s);
  }

  lemma SleepKeepsTimers(s: Proc)
    requires s.running.Ref? && TimersOk(s)
    ensures TimersOk(Sleep(s))
  {
    if SleepBlocks(s) {
      var timer := Timer(s.freeTimers[0], s.time + s.pcbs[s.running.p].arg0, s.running.p);
      InsertSorted(s.timers, timer);
      InsertBlockBag(s.timers, timer);
      PopFront(s.freeTimers);
      assert TimerBag(Sleep(s))
          == TimerBag(s);
    }
  }

  lemma InBag(l: seq<Block>, p: Block)
    ensures p in l <==> multiset(l)[p] > 0
  {
  }

  /** The waiters when one more has joined them, which is neither a sleeper nor on a semaphore yet. */
  lemma JoinWaiters(s: Proc, t: Proc, sw: multiset<Block>, sw': multiset<Block>)
    requires Placed(s) && Waiters(s, sw) && SwitchedOut(s, t)
    requires forall p: Block :: Ref(p) != s.running ==> t.pcbs[p] == s.pcbs[p]
    requires multiset(Pcbs(t.timers)) + sw' <= multiset(t.waiting)
    requires forall p: Block :: Ref(p) != s.running ==>
               multiset(Pcbs(t.timers))[p] == multiset(Pcbs(s.timers))[p] && sw'[p] == sw[p]
    requires var r := s.running.p; WaitsFor(t.pcbs[r], r in Pcbs(t.timers), r in sw')
    ensures Waiters(t, sw')
  {
    PlacesApart(s);
    forall p | p in t.waiting
      ensures WaitsFor(t.pcbs[p], p in Pcbs(t.timers), p in sw')
    {
      if Ref(p) != s.running {
        InBag(Pcbs(t.timers), p);
        InBag(Pcbs(s.timers), p);
        assert p in s.waiting;
      }
    }
  }

  lemma SwitchKeepsStatuses(s: Proc, t: Proc)
    requires Placed(s) && Statuses(s) && SwitchedOut(s, t)
    requires forall p: Block :: Ref(p) != s.running ==> t.pcbs[p] == s.pcbs[p]
    requires t.pcbs[s.running.p].timer == s.pcbs[s.running.p].timer
    ensures Statuses(t)
  {
    PlacesApart(s);
  }

  /** The bags of sleepers and of waiters grow by the same process. */
  lemma OneMoreSleeper(s: Proc, sw: multiset<Block>)
    requires s.running.Ref? && SleepBlocks(s) && multiset(Pcbs(s.timers)) + sw <= multiset(s.waiting)
    ensures var t, r := Sleep(s), s.running.p;
            && multiset(Pcbs(t.timers)) == multiset(Pcbs(s.timers)) + multiset{r}
            && multiset(Pcbs(t.timers)) + sw <= multiset(t.waiting) && r in Pcbs(t.timers)
  {
    var t, r := Sleep(s), s.running.p;
    InsertPcbBag(s.timers, Timer(s.freeTimers[0], s.time + s.pcbs[r].arg0, r));
    InBag(Pcbs(t.timers), r);
    hide Insert, Pcbs;
    assert multiset(s.waiting + [r]) == multiset(s.waiting) + multiset{r};
  }

  lemma SleepKeepsWaiters(s: Proc, sw: multiset<Block>)
    requires s.running.Ref? && s.pcbs[s.running.p].syscallNum == CALL_SLEEP && SleepBlocks(s)
    requires Placed(s) && Waiters(s, sw)
    ensures Waiters(Sleep(s), sw)
  {
    OneMoreSleeper(s, sw);
    hide Insert, Pcbs, Placed;
    JoinWaiters(s, Sleep(s), sw, sw);
  }

  lemma SleepKeepsWakeups(s: Proc)
    requires s.running.Ref? && s.pcbs[s.running.p].syscallNum == CALL_SLEEP && SleepBlocks(s)
    requires Placed(s) && NoLostWakeup(s)
    ensures NoLostWakeup(Sleep(s))
  {
    var t, r := Sleep(s), s.running.p;
    PlacesApart(s);
    forall p, c | p in t.waiting && c in t.children[p] && c in t.zombies
      ensures !AwaitedBy(t, c, p)
    {
      if p != r { assert !AwaitedBy(s, c, p); }
    }
  }

  lemma SleepKeepsInv(s: Proc, sw: multiset<Block>)
    requires Inv(s, sw) && s.running.Ref? && s.pcbs[s.running.p].syscallNum == CALL_SLEEP
    ensures Inv(Sleep(s), sw)
  {
    SleepKeepsTimers(s);
    if !SleepBlocks(s) {
      ReturnKeepsInv(s, sw, ESLEEP);
    } else {
      SwitchKeepsPlaces(s, Sleep(s));
      IdentitiesKeep(s, Sleep(s));
      SleepKeepsWaiters(s, sw);
      SwitchKeepsStatuses(s, Sleep(s));
      SleepKeepsWakeups(s);
    }
  }

  /** A timer block is always there: there are fewer sleepers than PCBs, and as many timer blocks as PCBs. */
  lemma TimerAllocNeverFails(s: Proc, sw: multiset<Block>)
    requires Inv(s, sw) && s.running.Ref?
    ensures s.freeTimers != [] && SleepBlocks(s)
    ensures |s.freeTimers| + |s.timers| == MAX_NUM_PROCESSES
    ensures |s.timers| <= |s.waiting| < MAX_NUM_PROCESSES - |s.freePcbs|
  {
    ExactlySize(PlaceBag(s), MAX_NUM_PROCESSES);
    ExactlySize(TimerBag(s), MAX_NUM_PROCESSES);
    assert |multiset(Pcbs(s.timers))| <= |multiset(s.waiting)| by {
      var rest := multiset(s.waiting) - multiset(Pcbs(s.timers));
      assert multiset(s.waiting) == multiset(Pcbs(s.timers)) + rest;
    }
  }

  // ---- wait

  /** A PCB that is nowhere on the waiting list has no timer and waits on no semaphore. */
  lemma NotWaiting(s: Proc, sw: multiset<Block>, p: Block)
    requires Waiters(s, sw) && p !in s.waiting
    ensures p !in Pcbs(s.timers) && p !in sw
  {
    InBag(s.waiting, p);
    InBag(Pcbs(s.timers), p);
    assert (multiset(Pcbs(s.timers)) + sw)[p] <= multiset(s.waiting)[p];
  }

  lemma ChildInUse(s: Proc, p: Block, c: Block)
    requires Kin(s) && c in s.children[p]
    ensures c !in s.freePcbs && c != s.init && s.pcbs[c].parent == Ref(p)
    ensures multiset(s.children[p])[c] == 1
  {
    SumContains(s.children, p);
    InBag(s.children[p], c);
    InBag(s.freePcbs, c);
    assert KinBag(s)[c] == 1;
  }

  /** Everyone in use but init has a parent, on whose children list it is. */
  lemma HasParent(s: Proc, c: Block)
    requires Kin(s) && c !in s.freePcbs && c != s.init
    ensures s.pcbs[c].parent.Ref? && c in s.children[s.pcbs[c].parent.p]
  {
    assert KinBag(s)[c] == 1;
    assert c in Sum(s.children);
    hide Exactly, KinBag;
    var p := SumMember(s.children, c);
  }

  lemma PlaceByStatus(s: Proc, sw: multiset<Block>, p: Block)
    requires Placed(s) && Waiters(s, sw) && Statuses(s) && p !in s.freePcbs
    ensures p in s.zombies <==> s.pcbs[p].status == Zombie
    ensures s.pcbs[p].status == Waiting ==> p in s.waiting
  {
    OnePlace(s, p);
    InBag(s.freePcbs, p);
    InBag(s.ready, p);
    InBag(s.waiting, p);
    InBag(s.zombies, p);
    PlacesApart(s);
  }

  /** The scan stops at a match whenever there is one. */
  lemma {:induction false} ScanFindsMatch(s: Proc, children: seq<Block>, pid: int)
    requires children != []
    ensures (exists c :: c in children && Matches(s, c, pid)) ==> Matches(s, children[Awaited(s, children, pid)], pid)
  {
    if !Matches(s, children[0], pid) && |children| > 1 {
      ScanFindsMatch(s, children[1..], pid);
      if c :| c in children && Matches(s, c, pid) {
        assert c in children[1..];
      }
    }
  }

  /** When wait blocks, none of the zombie children would have ended it. */
  lemma BlockedOverNoZombie(s: Proc, sw: multiset<Block>, c: Block)
    requires Inv(s, sw) && s.running.Ref? && !WaitReturns(s)
    requires c in s.children[s.running.p] && c in s.zombies
    ensures var pid := s.pcbs[s.running.p].arg0; pid != 0 && pid != s.pcbs[c].pid
  {
    var r := s.running.p;
    var pid := s.pcbs[r].arg0;
    var stop := s.children[r][Awaited(s, s.children[r], pid)];
    ScanFindsMatch(s, s.children[r], pid);
    if Matches(s, c, pid) {
      assert Matches(s, stop, pid);
      ChildInUse(s, r, c);
      ChildInUse(s, r, stop);
    }
  }

  lemma WaitBlocksKeepsWakeups(s: Proc, sw: multiset<Block>)
    requires Inv(s, sw) && s.running.Ref? && !WaitReturns(s) && s.ready != []
    ensures NoLostWakeup(Wait(s))
  {
    var t, r := Wait(s), s.running.p;
    PlacesApart(s);
    forall p, c | p in t.waiting && c in t.children[p] && c in t.zombies
      ensures !AwaitedBy(t, c, p)
    {
      if p == r {
        BlockedOverNoZombie(s, sw, c);
      } else {
        assert !AwaitedBy(s, c, p);
      }
    }
  }

  lemma WaitBlocksKeepsInv(s: Proc, sw: multiset<Block>)
    requires Inv(s, sw) && s.running.Ref? && s.pcbs[s.running.p].syscallNum == CALL_WAIT
    requires !WaitReturns(s) && s.ready != []
    ensures Inv(Wait(s), sw)
  {
    hide Kin;
    hide Pids;
    hide ExitsAccounted;
    hide Placed;
    hide NoLostWakeup;
    var t, r := Wait(s), s.running.p;
    PlacesApart(s);
    SwitchKeepsPlaces(s, t);
    IdentitiesKeep(s, t);
    SwitchKeepsStatuses(s, t);
    NotWaiting(s, sw, r);
    assert multiset(t.waiting) == multiset(s.waiting) + multiset{r};
    JoinWaiters(s, t, sw, sw);
    WaitBlocksKeepsWakeups(s, sw);
  }
}
