/** What the laws say about reachable states and about single calls in them. */
module KernelTheorems {
  import opened Bags
  import opened Timers
  import opened Processes
  import opened ProcessLaws
  import opened ProcessSteps
  import opened ProcessExits
  import opened Scheduling
  import opened Semaphores
  import opened SemaphoreLaws
  import opened KernelRuns

  // ---- where processes are

  function WaitCallers(s: Proc, l: seq<Block>): seq<Block> {
    if l == [] then []
    else if s.pcbs[l[0]].syscallNum == CALL_WAIT then [l[0]] + WaitCallers(s, l[1..])
    else WaitCallers(s, l[1..])
  }

  lemma {:induction false} WaitCallersCount(s: Proc, l: seq<Block>, p: Block)
    ensures multiset(WaitCallers(s, l))[p] == if s.pcbs[p].syscallNum == CALL_WAIT then multiset(l)[p] else 0
  {
    if l != [] {
      PopFront(l);
      WaitCallersCount(s, l[1..], p);
      if s.pcbs[l[0]].syscallNum == CALL_WAIT {
        assert multiset(WaitCallers(s, l)) == multiset{l[0]} + multiset(WaitCallers(s, l[1..]));
      }
    }
  }

  /** A waiting process is in exactly one of the three groups. */
  lemma OneGroup(k: Kern, p: Block)
    requires KernInv(k)
    ensures multiset(k.p.waiting)[p] ==
            multiset(Pcbs(k.p.timers))[p] + WaiterBag(k.x)[p]
            + if k.p.pcbs[p].syscallNum == CALL_WAIT then multiset(k.p.waiting)[p] else 0
  {
    OnePlace(k.p, p);
    InBag(k.p.waiting, p);
    InBag(Pcbs(k.p.timers), p);
    assert (multiset(Pcbs(k.p.timers)) + WaiterBag(k.x))[p] <= multiset(k.p.waiting)[p];
    if p in k.p.waiting {
      assert WaitsFor(k.p.pcbs[p], p in Pcbs(k.p.timers), p in WaiterBag(k.x));
    }
  }

  /** After any run from the start: every PCB block is free, running, ready, waiting or a zombie, once; the
      waiting list is, as a bag, the sleepers with one timer each, the semaphore waiters with one
      wait-list entry each, and the callers of wait. */
  lemma WaitingIsPartitioned(k0: Kern, steps: seq<Step>)
    requires Boot(k0) && Legal(k0, steps)
    ensures var k := Run(k0, steps);
            && Exactly(PlaceBag(k.p), MAX_NUM_PROCESSES)
            && multiset(k.p.waiting) ==
               multiset(Pcbs(k.p.timers)) + WaiterBag(k.x) + multiset(WaitCallers(k.p, k.p.waiting))
  {
    Reachable(k0, steps);
    hide Legal, Run;
    Partitioned(Run(k0, steps));
  }

  lemma Partitioned(k: Kern)
    requires KernInv(k)
    ensures Exactly(PlaceBag(k.p), MAX_NUM_PROCESSES)
    ensures multiset(k.p.waiting) ==
            multiset(Pcbs(k.p.timers)) + WaiterBag(k.x) + multiset(WaitCallers(k.p, k.p.waiting))
  {
    assert Placed(k.p);
    hide KernInv, WaiterBag, WaitCallers;
    forall p: Block
      ensures multiset(k.p.waiting)[p] ==
              (multiset(Pcbs(k.p.timers)) + WaiterBag(k.x) + multiset(WaitCallers(k.p, k.p.waiting)))[p]
    {
      OneGroup(k, p);
      WaitCallersCount(k.p, k.p.waiting, p);
    }
  }

  /** The status field says Waiting exactly of the sleepers and the callers of wait: of a process blocked
      on a semaphore it does not. */
  lemma WaitingStatusIff(k: Kern, p: Block)
    requires KernInv(k) && p !in k.p.freePcbs
    ensures k.p.pcbs[p].status == Waiting <==> p in k.p.waiting && p !in WaiterBag(k.x)
  {
    PlaceByStatus(k.p, WaiterBag(k.x), p);
    OnePlace(k.p, p);
    OneGroup(k, p);
    InBag(k.p.waiting, p);
    InBag(Pcbs(k.p.timers), p);
    if p in k.p.waiting {
      assert WaitsFor(k.p.pcbs[p], p in Pcbs(k.p.timers), p in WaiterBag(k.x));
    }
  }

  // ---- exit statuses

  /** After any run from the start: the statuses passed to exit are those delivered and those of the
      zombies, each once, with the values passed and for the right parent. */
  lemma ExitStatusesConserved(k0: Kern, steps: seq<Step>)
    requires Boot(k0) && Legal(k0, steps)
    ensures var s := Run(k0, steps).p;
            && multiset(s.exited) == multiset(s.delivered) + multiset(Records(s, s.zombies))
            && NoDuplicates(s.delivered)
            && (forall x :: x in s.delivered ==> forall z :: z in s.zombies ==> s.pcbs[z].pid != x.pid)
  {
    Reachable(k0, steps);
    var s := Run(k0, steps).p;
    forall x | x in s.exited
      ensures multiset(s.exited)[x] <= 1
    {
      DistinctPidsOnce(s.exited, x);
    }
    forall x | x in s.delivered
      ensures multiset(s.delivered)[x] <= 1
      ensures forall z :: z in s.zombies ==> s.pcbs[z].pid != x.pid
    {
      assert x in multiset(s.exited);
      assert multiset(s.exited)[x] == multiset(s.delivered)[x] + multiset(Records(s, s.zombies))[x];
      forall z | z in s.zombies
        ensures s.pcbs[z].pid != x.pid
      {
        DeliveredNotZombie(s, x, z);
      }
    }
    BagNoDuplicates(s.delivered);
  }

  lemma DistinctPidsOnce(xs: seq<ExitRecord>, x: ExitRecord)
    requires forall i, j :: 0 <= i < j < |xs| ==> xs[i].pid != xs[j].pid
    requires x in xs
    ensures multiset(xs)[x] == 1
  {
    var i :| 0 <= i < |xs| && xs[i] == x;
    assert xs == xs[..i] + [x] + xs[i + 1..];
    assert x !in xs[..i] && x !in xs[i + 1..];
  }

  lemma SamePidSameRecord(xs: seq<ExitRecord>, x: ExitRecord, y: ExitRecord)
    requires forall i, j :: 0 <= i < j < |xs| ==> xs[i].pid != xs[j].pid
    requires x in xs && y in xs && x.pid == y.pid
    ensures x == y
  {
  }

  lemma DeliveredNotZombie(s: Proc, x: ExitRecord, z: Block)
    requires ExitsAccounted(s) && x in s.delivered && z in s.zombies
    ensures s.pcbs[z].pid != x.pid
  {
    var i :| 0 <= i < |s.zombies| && s.zombies[i] == z;
    var y := Records(s, s.zombies)[i];
    assert y in Records(s, s.zombies);
    assert x in multiset(s.exited) && y in multiset(s.exited);
    assert multiset(s.exited)[x] == multiset(s.delivered)[x] + multiset(Records(s, s.zombies))[x];
    DistinctPidsOnce(s.exited, x);
    if s.pcbs[z].pid == x.pid {
      SamePidSameRecord(s.exited, x, y);
    }
  }

  /** The status of zombie z, as recorded when it exited: the only record with its pid, and not delivered. */
  lemma ZombieRecorded(s: Proc, z: Block)
    requires ExitsAccounted(s) && z in s.zombies
    ensures Record(s, z) in s.exited && Record(s, z) !in s.delivered
    ensures forall x :: x in s.exited && x.pid == s.pcbs[z].pid ==> x == Record(s, z)
  {
    var i :| 0 <= i < |s.zombies| && s.zombies[i] == z;
    assert Records(s, s.zombies)[i] == Record(s, z);
    assert Record(s, z) in multiset(s.exited);
    if Record(s, z) in s.delivered {
      DeliveredNotZombie(s, Record(s, z), z);
    }
    forall x | x in s.exited && x.pid == s.pcbs[z].pid
      ensures x == Record(s, z)
    {
      SamePidSameRecord(s.exited, x, Record(s, z));
    }
  }

  /** What a wait that returns stores is what the child passed to exit, to this very parent, and it had not been
      delivered before; the pid returned is that child's, and its PCB is free. */
  lemma WaitDeliversExitValue(s: Proc, sw: multiset<Block>)
    requires Inv(s, sw) && s.running.Ref? && s.children[s.running.p] != [] && WaitReturns(s)
    ensures var r, t := s.running.p, Wait(s);
            exists x :: && x in s.exited && x !in s.delivered && t.delivered == s.delivered + [x]
                        && x.pid == t.pcbs[r].retvalue && x.parentPid == s.pcbs[r].pid
                        && t.memory == Store(s.memory, s.pcbs[r].arg1, x.value)
                        && (forall y :: y in s.exited && y.pid == x.pid ==> y == x)
                        && t.running == s.running && t.ready == s.ready && t.waiting == s.waiting
  {
    var r := s.running.p;
    var z := s.children[r][Awaited(s, s.children[r], s.pcbs[r].arg0)];
    ChildInUse(s, r, z);
    PlaceByStatus(s, sw, z);
    ZombieRecorded(s, z);
    var x := Record(s, z);
    assert x.parentPid == s.pcbs[r].pid;
    hide Inv;
    assert Wait(s).delivered == s.delivered + [x];
  }

  /** Every block given back to the PCB pool was in use: the release never fails. */
  lemma FreedWasInUse(k: Kern, step: Step, z: Block)
    requires KernInv(k) && Enabled(k, step) && Next(k, step).p.freePcbs == [z] + k.p.freePcbs
    ensures z !in k.p.freePcbs
  {
    hide Handle;
    hide Handles;
    NextKeepsInv(k, step);
    NoFreeDuplicates(Next(k, step).p);
    HeadNotInTail(z, k.p.freePcbs);
  }

  lemma NoFreeDuplicates(s: Proc)
    requires Placed(s)
    ensures NoDuplicates(s.freePcbs)
  {
    WithoutDuplicates(s);
  }

  lemma HeadNotInTail(z: Block, l: seq<Block>)
    requires NoDuplicates([z] + l)
    ensures z !in l
  {
    forall i | 0 <= i < |l|
      ensures l[i] != z
    {
      var w := [z] + l;
      assert w[0] == z && w[i + 1] == l[i];
    }
  }

  // ---- wait

  predicate HasChildWithPid(s: Proc, pid: int)
    requires s.running.Ref?
  {
    exists c :: c in s.children[s.running.p] && s.pcbs[c].pid == pid
  }

  /** What wait answers: an error exactly for a process without children; otherwise the status of a
      zombie child that matches the request, if there is one; otherwise it blocks, unless the pid
      is no child's and the last child is a zombie. */
  lemma WaitOutcome(s: Proc, sw: multiset<Block>)
    requires Inv(s, sw) && s.running.Ref? && s.children[s.running.p] != []
    ensures var r, cs := s.running.p, s.children[s.running.p];
            var pid, z := s.pcbs[r].arg0, cs[Awaited(s, cs, s.pcbs[r].arg0)];
            && (pid == 0 ==> (WaitReturns(s) <==> exists c :: c in cs && c in s.zombies))
            && (pid != 0 && HasChildWithPid(s, pid) ==> s.pcbs[z].pid == pid && (WaitReturns(s) <==> z in s.zombies))
            && (pid != 0 && !HasChildWithPid(s, pid) ==> z == cs[|cs| - 1] && (WaitReturns(s) <==> z in s.zombies))
  {
    var r, cs := s.running.p, s.children[s.running.p];
    var pid := s.pcbs[r].arg0;
    var z := cs[Awaited(s, cs, pid)];
    ScanFindsMatch(s, cs, pid);
    if pid != 0 && !HasChildWithPid(s, pid) {
      ScanEndsLast(s, cs, pid);
    }
    forall c | c in cs
      ensures c in s.zombies <==> s.pcbs[c].status == Zombie
    {
      ChildInUse(s, r, c);
      PlaceByStatus(s, sw, c);
    }
    if pid == 0 {
      if c :| c in cs && c in s.zombies {
        assert Matches(s, c, pid);
      }
    } else if HasChildWithPid(s, pid) {
      var c :| c in cs && s.pcbs[c].pid == pid;
      assert Matches(s, c, pid);
    }
  }

  lemma {:induction false} ScanEndsLast(s: Proc, children: seq<Block>, pid: int)
    requires children != [] && forall c :: c in children ==> !Matches(s, c, pid)
    ensures Awaited(s, children, pid) == |children| - 1
  {
    if |children| > 1 {
      ScanEndsLast(s, children[1..], pid);
    }
  }

  /** wait(pid) hands over the status of a child other than pid exactly when pid is nobody's pid among
      the children and the last child is a zombie; it never reports the unknown pid. */
  lemma WaitDeliversOtherIff(s: Proc, sw: multiset<Block>)
    requires Inv(s, sw) && s.running.Ref? && s.children[s.running.p] != []
    requires s.pcbs[s.running.p].arg0 != 0
    ensures var cs, pid := s.children[s.running.p], s.pcbs[s.running.p].arg0;
            (WaitReturns(s) && s.pcbs[cs[Awaited(s, cs, pid)]].pid != pid)
            <==> (!HasChildWithPid(s, pid) && cs[|cs| - 1] in s.zombies)
  {
    WaitOutcome(s, sw);
  }

  // ---- semaphores

  /** The law of every semaphore in semaphores_list, after any run from the start. */
  lemma SemaphoreLaw(k0: Kern, steps: seq<Step>, m: Block)
    requires Boot(k0) && Legal(k0, steps) && m in Run(k0, steps).x.semList
    ensures var x := Run(k0, steps).x;
            var h := x.history[m];
            && x.counts[m] >= 0 && (x.waiters[m] != [] ==> x.counts[m] == 0)
            && x.counts[m] + h.waits == h.initial + h.posts
            && h.blocked == h.woken + Owners(x, x.waiters[m])
  {
    Reachable(k0, steps);
  }

  ghost predicate AllDisciplined(x: Sems) {
    forall m :: m in x.semList ==> Disciplined(x, m)
  }

  /** In this step nobody posts a semaphore without having completed a wait on it since its last post. */
  ghost predicate OrderlyStep(k: Kern, step: Step)
    requires k.p.running.Ref?
  {
    step.SemPostCall? && Lookup(k, step.fd).Ref? ==>
      k.p.running.p in k.x.history[k.x.descs[Lookup(k, step.fd).p].sem].holders
  }

  ghost predicate Orderly(k: Kern, steps: seq<Step>)
    requires Legal(k, steps)
    decreases |steps|
  {
    steps == [] || (OrderlyStep(k, steps[0]) && Orderly(Next(k, steps[0]), steps[1..]))
  }

  lemma PostKeepsDiscipline(k: Kern, fd: int)
    requires KernInv(k) && k.p.running.Ref? && AllDisciplined(k.x) && OrderlyStep(k, SemPostCall(fd))
    ensures AllDisciplined(SemPost(k, fd).x)
  {
    hide Inv, SemInv;
    LookupFacts(k, fd);
    if Lookup(k, fd).Ref? {
      ReleaseDisciplined(k.x, k.x.descs[Lookup(k, fd).p].sem, k.p.running.p);
    }
  }

  /** A post, with or without a wake-up, by a process that holds the semaphore. */
  lemma ReleaseDisciplined(x: Sems, m: Block, r: Block)
    requires SemInv(x) && AllDisciplined(x) && m in x.semList && r in x.history[m].holders
    ensures AllDisciplined(Release(x, m, r))
    ensures x.waiters[m] != [] ==> AllDisciplined(Dequeue(Release(x, m, r), m))
  {
    ReleaseKeeps(x, m, r);
    if x.waiters[m] != [] {
      DequeueKeepsDiscipline(x, m, r);
    }
    hide SemInv;
  }

  lemma CloseKeepsDiscipline(k: Kern, fd: int)
    requires k.p.running.Ref? && AllDisciplined(k.x)
    ensures AllDisciplined(SemClose(k, fd).x)
  {
    var d := Lookup(k, fd);
    if d.Ref? {
      RemoveSubset(k.x.semList, k.x.descs[d.p].sem);
    }
  }

  lemma WaitKeepsDiscipline(k: Kern, fd: int)
    requires k.p.running.Ref? && (WouldBlock(k, fd) ==> k.p.ready != []) && AllDisciplined(k.x)
    ensures AllDisciplined(SemWait(k, fd).x)
  {
  }

  lemma OpenKeepsDiscipline(k: Kern, id: int, flags: int, count: int)
    requires k.p.running.Ref? && AllDisciplined(k.x)
    ensures AllDisciplined(SemOpen(k, id, flags, count).x)
  {
    hide ById;
  }

  lemma HandleKeepsDiscipline(k: Kern, step: Step)
    requires KernInv(k) && k.p.running.Ref? && Handles(k, step) && AllDisciplined(k.x) && OrderlyStep(k, step)
    ensures AllDisciplined(Handle(k, step).x)
  {
    hide KernInv, AllDisciplined, SemPost, SemWait, SemOpen, SemClose;
    match step
    case SemOpenCall(id, flags, count) => OpenKeepsDiscipline(k, id, flags, count);
    case SemWaitCall(fd) => WaitKeepsDiscipline(k, fd);
    case SemPostCall(fd) => PostKeepsDiscipline(k, fd);
    case SemCloseCall(fd) => CloseKeepsDiscipline(k, fd);
    case SpawnCall(_, _) => SameHistories(k.x, SpawnInKernel(k).x);
    case ForkCall => SameHistories(k.x, SpawnInKernel(k).x);
    case _ =>
  }

  lemma SameHistories(x: Sems, y: Sems)
    requires AllDisciplined(x) && y.semList == x.semList && y.history == x.history
    ensures AllDisciplined(y)
  {
  }

  lemma {:induction false} RunKeepsDiscipline(k: Kern, steps: seq<Step>)
    requires KernInv(k) && Legal(k, steps) && Orderly(k, steps) && AllDisciplined(k.x)
    ensures AllDisciplined(Run(k, steps).x)
    decreases |steps|
  {
    hide KernInv;
    hide Handle;
    hide Handles;
    if steps != [] {
      RecordCallKeepsInv(k, steps[0]);
      HandleKeepsDiscipline(RecordCall(k, steps[0]), steps[0]);
      NextKeepsInv(k, steps[0]);
      RunKeepsDiscipline(Next(k, steps[0]), steps[1..]);
    }
  }

  /** Mutual exclusion: in any run from the start in which processes post only what they hold, no
      semaphore is ever held more often than its initial count; so with initial count 1 at most one
      process is between its wait and its post. */
  lemma MutualExclusion(k0: Kern, steps: seq<Step>, m: Block)
    requires Boot(k0) && Legal(k0, steps) && Orderly(k0, steps) && m in Run(k0, steps).x.semList
    ensures var x := Run(k0, steps).x;
            && x.counts[m] + |x.history[m].holders| == x.history[m].initial
            && |x.history[m].holders| <= x.history[m].initial
  {
    BootHolds(k0);
    Reachable(k0, steps);
    RunKeepsDiscipline(k0, steps);
  }

  /** Closing the descriptor leaves someone blocked on a semaphore that is gone exactly when it is the last
      one not on the wait list, and the wait list is not empty. */
  lemma CloseStrandsIff(k: Kern, fd: int)
    requires KernInv(k) && k.p.running.Ref?
    ensures (exists m: Block :: m in SemClose(k, fd).x.freeSems && SemClose(k, fd).x.waiters[m] != [])
            <==> !CloseSafe(k, fd)
  {
    hide Inv;
    var d, y := Lookup(k, fd), SemClose(k, fd).x;
    LookupFacts(k, fd);
    if d.Ref? {
      var m := k.x.descs[d.p].sem;
      assert y.waiters == k.x.waiters;
      if !CloseSafe(k, fd) {
        assert m in y.freeSems && y.waiters[m] != [];
      }
    }
  }

  /** The descriptors of semaphore m that processes own are on one of its two lists; the owner of one on the wait list
      is on the waiting list. */
  lemma OwnedOnLists(k: Kern, p: Block, d: Block)
    requires KernInv(k) && d in k.x.owned[p]
    ensures var m := k.x.descs[d].sem;
            d in k.x.attached[m] || (d in k.x.waiters[m] && p in k.p.waiting)
  {
    OwnedSomewhere(k.x, p, d);
    var m := k.x.descs[d].sem;
    if d in k.x.waiters[m] {
      WaiterOwnerCounted(k.x, m, d);
      assert k.x.descs[d].owner == p;
      assert multiset(Pcbs(k.p.timers)) + WaiterBag(k.x) <= multiset(k.p.waiting);
      InBag(k.p.waiting, p);
    }
  }

  /** After such a close the semaphore's block is the next one to be given out, with the stranded waiters still on its
      wait list. Its only descriptors left are theirs, and they are all blocked: no process that can run can post
      it. */
  lemma StrandedStay(k: Kern, fd: int)
    requires KernInv(k) && k.p.running.Ref? && !CloseSafe(k, fd)
    ensures var t, m := SemClose(k, fd), k.x.descs[Lookup(k, fd).p].sem;
            && t.x.freeSems == [m] + k.x.freeSems && t.x.waiters == k.x.waiters && t.x.waiters[m] != []
            && t.p.waiting == k.p.waiting && t.p.running == k.p.running
            && forall p: Block, e :: e in t.x.owned[p] && t.x.descs[e].sem == m ==>
                 e in t.x.waiters[m] && p in t.p.waiting
  {
    hide KernInv, Remove, Lookup;
    LookupFacts(k, fd);
    StrandedDescriptors(k, k.p.running.p, Lookup(k, fd).p);
  }

  /** When the last idle descriptor of a semaphore has gone, processes own only those on its wait list. */
  lemma StrandedDescriptors(k: Kern, r: Block, d: Block)
    requires KernInv(k) && d in k.x.owned[r] && Remove(k.x.attached[k.x.descs[d].sem], d) == []
    ensures var m, y := k.x.descs[d].sem, Detach(k.x, r, d);
            forall p: Block, e :: e in y.owned[p] && y.descs[e].sem == m ==> e in y.waiters[m] && p in k.p.waiting
  {
    var m, y := k.x.descs[d].sem, Detach(k.x, r, d);
    ListApart(k.x, r);
    RemovedIsGone(k.x.owned[r], d);
    OnlyIdle(k.x.attached[m], d);
    hide KernInv, Remove;
    forall p: Block, e | e in y.owned[p] && y.descs[e].sem == m
      ensures e in y.waiters[m] && p in k.p.waiting
    {
      OwnedOnLists(k, p, e);
    }
  }

  lemma OnlyIdle(l: seq<Block>, d: Block)
    requires Remove(l, d) == []
    ensures forall e :: e in l ==> e == d
  {
    if l != [] {
      assert l == [l[0]] + l[1..];
    }
  }

  /** Semaphore_alloc does not reset the list of waiters: a semaphore created in that block has them from the start. */
  lemma NextSemaphoreInherits(k: Kern, id: int, flags: int, count: int)
    requires k.p.running.Ref? && Creates(k, id, flags) && k.x.waiters[k.x.freeSems[0]] != []
    ensures var t, m := SemOpen(k, id, flags, count), k.x.freeSems[0];
            m in t.x.semList && t.x.ids[m] == id && t.x.waiters[m] == k.x.waiters[m] && t.x.history[m].blocked == []
  {
    var t, m := SemOpen(k, id, flags, count), k.x.freeSems[0];
    assert t.x.semList == k.x.semList + [m];
  }

  // ---- sleep

  /** In every reachable state with a running process, sleep succeeds. */
  lemma SleepSucceeds(k0: Kern, steps: seq<Step>)
    requires Boot(k0) && Legal(k0, steps) && Run(k0, steps).p.running.Ref?
    ensures var s := Run(k0, steps).p;
            && s.freeTimers != [] && s.running.p !in Pcbs(s.timers)
            && Sleep(s).timers ==
               Insert(s.timers, Timer(s.freeTimers[0], s.time + s.pcbs[s.running.p].arg0, s.running.p))
  {
    hide Boot, Legal, Run, KernInv;
    Reachable(k0, steps);
    SleepFindsTimer(Run(k0, steps));
  }

  lemma SleepFindsTimer(k: Kern)
    requires KernInv(k) && k.p.running.Ref?
    ensures SleepBlocks(k.p) && k.p.running.p !in Pcbs(k.p.timers)
  {
    TimerAllocNeverFails(k.p, WaiterBag(k.x));
    PlacesApart(k.p);
    NotWaiting(k.p, WaiterBag(k.x), k.p.running.p);
  }

  /** Sleep leaves nobody running exactly when nobody is ready. Then no call and no timer interrupt is possible any
      more, as both need the running process: nothing will wake those who sleep. */
  lemma SleepIdlesIff(k: Kern, cycles: int)
    requires KernInv(k) && k.p.running.Ref?
    ensures Enabled(k, SleepCall(cycles))
    ensures var t := Next(k, SleepCall(cycles));
            (t.p.running.Null? <==> k.p.ready == []) && (t.p.running.Null? <==> forall step :: !Enabled(t, step))
  {
    hide KernInv;
    RecordCallKeepsInv(k, SleepCall(cycles));
    SleepFindsTimer(RecordCall(k, SleepCall(cycles)));
    var t := Next(k, SleepCall(cycles));
    if t.p.running.Ref? {
      assert Enabled(t, Interrupt);
    }
  }

  // ---- wake-ups

  /** In every reachable state, nobody sleeps in wait over a zombie child that would end the wait. */
  lemma NoWakeupLost(k0: Kern, steps: seq<Step>, p: Block, c: Block)
    requires Boot(k0) && Legal(k0, steps)
    requires var s := Run(k0, steps).p; p in s.waiting && c in s.children[p] && c in s.zombies
    ensures !AwaitedBy(Run(k0, steps).p, c, p)
  {
    hide Boot, Legal, Run;
    Reachable(k0, steps);
  }
}
