/** What each call of the process side does, told by its arguments and the state before: who runs, which lists change,
    what the caller gets, and that nothing else changes. */
module KernelCalls {
  import opened Bags
  import opened Timers
  import opened Processes
  import opened ProcessLaws
  import opened ProcessSteps
  import opened ProcessExits
  import opened Families
  import opened Scheduling
  import opened Semaphores
  import opened SemaphoreLaws
  import opened KernelRuns
  import opened KernelTheorems

  /** Only these PCBs differ. */
  ghost predicate OtherPcbs(s: Proc, t: Proc, a: Block, b: Block) {
    forall p: Block :: p != a && p != b ==> t.pcbs[p] == s.pcbs[p]
  }

  /** The running process goes to the end of the waiting list, and the first ready one runs. */
  ghost predicate SwitchedAway(s: Proc, t: Proc)
    requires s.running.Ref?
  {
    && t.waiting == s.waiting + [s.running.p]
    && t.running == (if s.ready == [] then Null else Ref(s.ready[0]))
    && t.ready == (if s.ready == [] then [] else s.ready[1..])
  }

  // ---- spawn and fork

  /** A new process, in the first free PCB, is Ready at the end of the ready list and last among the caller's children.
      It has the next pid, which the caller gets, no signals pending, all of them let in, and no exit value. */
  lemma SpawnEffect(k: Kern, step: Step)
    requires KernInv(k) && Enabled(k, step) && (step.SpawnCall? || step.ForkCall?)
    ensures var t, r, c := Next(k, step), k.p.running.p, k.p.freePcbs[0];
            && t.p == k.p.(freePcbs := k.p.freePcbs[1..], freePtrs := k.p.freePtrs - 1, lastPid := k.p.lastPid + 1,
                           ready := k.p.ready + [c], children := k.p.children[c := []][r := k.p.children[r] + [c]],
                           pcbs := t.p.pcbs)
            && t.p.pcbs[c] == k.p.pcbs[c].(pid := k.p.lastPid, status := Ready, parent := Ref(r), returnValue := 0,
                                           signals := 0, signalsMask := 0xFFFF_FFFF, timer := Null)
            && t.p.pcbs[r] ==
               (if step.SpawnCall? then k.p.pcbs[r].(syscallNum := CALL_SPAWN, arg0 := step.f, arg1 := step.arg)
                else k.p.pcbs[r].(syscallNum := CALL_FORK)).(retvalue := k.p.lastPid)
            && OtherPcbs(k.p, t.p, r, c)
            && t.x == k.x.(lastFd := k.x.lastFd[c := 0])
  {
    hide KernInv;
    CallerNotFree(k);
  }

  lemma CallerNotFree(k: Kern)
    requires KernInv(k) && k.p.running.Ref?
    ensures k.p.running.p !in k.p.freePcbs && k.p.running.p !in k.p.ready && k.p.running.p !in k.p.waiting
    ensures k.p.running.p !in k.p.zombies
  {
    PlacesApart(k.p);
  }

  // ---- sleep

  /** The caller gets a timer for `cycles` from now, behind those for the same instant, and waits; who runs next does
      not get another status. */
  lemma SleepEffect(k: Kern, cycles: int)
    requires KernInv(k) && k.p.running.Ref?
    ensures Enabled(k, SleepCall(cycles)) && k.p.freeTimers != []
    ensures var t, r := Next(k, SleepCall(cycles)), k.p.running.p;
            var x := Timer(k.p.freeTimers[0], k.p.time + cycles, r);
            && SwitchedAway(k.p, t.p) && t.x == k.x
            && t.p == k.p.(waiting := t.p.waiting, running := t.p.running, ready := t.p.ready, pcbs := t.p.pcbs,
                           freeTimers := k.p.freeTimers[1..], timers := t.p.timers)
            && t.p.pcbs[r] == k.p.pcbs[r].(syscallNum := CALL_SLEEP, arg0 := cycles, status := Waiting)
            && OtherPcbs(k.p, t.p, r, r)
            && Sorted(t.p.timers)
            && forall time :: ForInstant(t.p.timers, time) ==
                              ForInstant(k.p.timers, time) + if time == x.time then [x] else []
  {
    hide KernInv, Insert, ForInstant, Sorted;
    RecordCallKeepsInv(k, SleepCall(cycles));
    SleepFindsTimer(RecordCall(k, SleepCall(cycles)));
    TimersSorted(k);
    TimerAdded(k.p.timers, Timer(k.p.freeTimers[0], k.p.time + cycles, k.p.running.p));
  }

  lemma TimerAdded(ts: seq<Timer>, x: Timer)
    requires Sorted(ts)
    ensures Sorted(Insert(ts, x))
    ensures forall time :: ForInstant(Insert(ts, x), time) == ForInstant(ts, time) + if time == x.time then [x] else []
  {
    hide Insert, ForInstant, Sorted;
    InsertSorted(ts, x);
    forall time
      ensures ForInstant(Insert(ts, x), time) == ForInstant(ts, time) + if time == x.time then [x] else []
    {
      InsertStable(ts, x, time);
    }
  }

  lemma TimersSorted(k: Kern)
    requires KernInv(k)
    ensures Sorted(k.p.timers)
  {
  }

  // ---- wait

  /** The caller has reaped child c, a zombie: it gets its pid, the exit value is where `result` points unless that is
      null, and the PCB is free. */
  ghost predicate Reaped(k: Kern, t: Kern, pid: int, result: int, c: Block)
    requires k.p.running.Ref?
  {
    var r := k.p.running.p;
    && t.p == k.p.(children := k.p.children[r := Remove(k.p.children[r], c)], freePtrs := k.p.freePtrs + 1,
                   zombies := Remove(k.p.zombies, c), freePcbs := [c] + k.p.freePcbs,
                   memory := if result != 0 then k.p.memory[result := k.p.pcbs[c].returnValue] else k.p.memory,
                   pcbs := t.p.pcbs, delivered := t.p.delivered)
    && t.p.pcbs[r] ==
       k.p.pcbs[r].(syscallNum := CALL_WAIT, arg0 := pid, arg1 := result, retvalue := k.p.pcbs[c].pid)
    && OtherPcbs(k.p, t.p, r, r)
    && t.p.delivered == k.p.delivered + [ExitRecord(k.p.pcbs[c].pid, k.p.pcbs[c].returnValue, k.p.pcbs[r].pid)]
    && t.x == k.x
  }

  /** The caller waits for a child to exit. */
  ghost predicate Blocked(k: Kern, t: Kern, pid: int, result: int)
    requires k.p.running.Ref?
  {
    var r := k.p.running.p;
    && SwitchedAway(k.p, t.p) && k.p.ready != [] && t.x == k.x
    && t.p == k.p.(waiting := t.p.waiting, running := t.p.running, ready := t.p.ready, pcbs := t.p.pcbs)
    && t.p.pcbs[r] == k.p.pcbs[r].(syscallNum := CALL_WAIT, arg0 := pid, arg1 := result, status := Waiting)
    && OtherPcbs(k.p, t.p, r, r)
  }

  /** The caller reaps c if that is a zombie, and waits otherwise. */
  ghost predicate AnswersFor(k: Kern, t: Kern, pid: int, result: int, c: Block)
    requires k.p.running.Ref?
  {
    if c in k.p.zombies then Reaped(k, t, pid, result, c) else Blocked(k, t, pid, result)
  }

  /** The first child from i on that is a zombie. */
  ghost predicate FirstZombie(s: Proc, cs: seq<Block>, i: int) {
    0 <= i < |cs| && cs[i] in s.zombies && forall j :: 0 <= j < i ==> cs[j] !in s.zombies
  }

  /** wait(pid, result) is about the child with that pid; with pid 0, about the first child that is a zombie; and with a
      pid that no child has, about the last child. Without children it fails. */
  lemma WaitEffect(k: Kern, pid: int, result: int)
    requires KernInv(k) && Enabled(k, WaitCall(pid, result))
    ensures var t, r, cs := Next(k, WaitCall(pid, result)), k.p.running.p, k.p.children[k.p.running.p];
            && (cs == [] ==>
                  && t.p == k.p.(pcbs := t.p.pcbs) && t.x == k.x && OtherPcbs(k.p, t.p, r, r)
                  && t.p.pcbs[r] ==
                     k.p.pcbs[r].(syscallNum := CALL_WAIT, arg0 := pid, arg1 := result, retvalue := EWAIT))
            && (pid != 0 ==> forall c :: c in cs && k.p.pcbs[c].pid == pid ==> AnswersFor(k, t, pid, result, c))
            && (pid != 0 && cs != [] && (forall c :: c in cs ==> k.p.pcbs[c].pid != pid) ==>
                  AnswersFor(k, t, pid, result, cs[|cs| - 1]))
            && (pid == 0 ==> forall i :: FirstZombie(k.p, cs, i) ==> Reaped(k, t, pid, result, cs[i]))
            && (pid == 0 && cs != [] && (forall c :: c in cs ==> c !in k.p.zombies) ==> Blocked(k, t, pid, result))
  {
    hide KernInv, AnswersFor, Reaped, Blocked, Next;
    assert k.p.running.Ref?;
    hide Enabled;
    if k.p.children[k.p.running.p] == [] {
      WaitFails(k, pid, result);
    } else {
      WaitAnswers(k, pid, result);
    }
  }

  lemma WaitAnswers(k: Kern, pid: int, result: int)
    requires KernInv(k) && Enabled(k, WaitCall(pid, result)) && k.p.children[k.p.running.p] != []
    ensures var t, cs := Next(k, WaitCall(pid, result)), k.p.children[k.p.running.p];
            && (pid != 0 ==> forall c :: c in cs && k.p.pcbs[c].pid == pid ==> AnswersFor(k, t, pid, result, c))
            && (pid != 0 && (forall c :: c in cs ==> k.p.pcbs[c].pid != pid) ==>
                  AnswersFor(k, t, pid, result, cs[|cs| - 1]))
            && (pid == 0 ==> forall i :: FirstZombie(k.p, cs, i) ==> Reaped(k, t, pid, result, cs[i]))
            && (pid == 0 && (forall c :: c in cs ==> c !in k.p.zombies) ==> Blocked(k, t, pid, result))
  {
    hide KernInv, AnswersFor, Reaped, Blocked, FirstZombie, Next, Awaited;
    assert k.p.running.Ref?;
    hide Enabled;
    WaitAbout(k, pid, result);
    ScanStops(k, pid);
    AnswersZombie(k, Next(k, WaitCall(pid, result)), pid, result);
  }

  lemma WaitFails(k: Kern, pid: int, result: int)
    requires Enabled(k, WaitCall(pid, result)) && k.p.children[k.p.running.p] == []
    ensures var t, r := Next(k, WaitCall(pid, result)), k.p.running.p;
            && t.p == k.p.(pcbs := t.p.pcbs) && t.x == k.x && OtherPcbs(k.p, t.p, r, r)
            && t.p.pcbs[r] == k.p.pcbs[r].(syscallNum := CALL_WAIT, arg0 := pid, arg1 := result, retvalue := EWAIT)
  {
  }

  lemma AnswersZombie(k: Kern, t: Kern, pid: int, result: int)
    requires k.p.running.Ref?
    ensures forall c: Block :: AnswersFor(k, t, pid, result, c) ==>
              if c in k.p.zombies then Reaped(k, t, pid, result, c) else Blocked(k, t, pid, result)
    ensures forall cs: seq<Block>, i :: FirstZombie(k.p, cs, i) ==> cs[i] in k.p.zombies
  {
    hide Reaped, Blocked;
  }

  /** Which child the scan stops at. */
  lemma ScanStops(k: Kern, pid: int)
    requires KernInv(k) && k.p.running.Ref? && k.p.children[k.p.running.p] != []
    ensures var cs := k.p.children[k.p.running.p]; var i := Awaited(k.p, cs, pid);
            && (pid != 0 ==> forall c :: c in cs && k.p.pcbs[c].pid == pid ==> c == cs[i])
            && (pid != 0 && (forall c :: c in cs ==> k.p.pcbs[c].pid != pid) ==> i == |cs| - 1)
            && (pid == 0 ==> forall j :: FirstZombie(k.p, cs, j) ==> j == i)
            && (pid == 0 && (forall c :: c in cs ==> c !in k.p.zombies) ==> i == |cs| - 1)
  {
    hide KernInv, Awaited;
    ScanFirst(k.p, k.p.children[k.p.running.p], pid);
    ChildFacts(k, k.p.running.p);
  }

  /** A child is a zombie exactly when its status says so, and no two children have the same pid. */
  lemma ChildFacts(k: Kern, r: Block)
    requires KernInv(k)
    ensures forall c :: c in k.p.children[r] ==> (c in k.p.zombies <==> k.p.pcbs[c].status == Zombie)
    ensures forall c, d :: c in k.p.children[r] && d in k.p.children[r] && k.p.pcbs[c].pid == k.p.pcbs[d].pid ==> c == d
  {
    forall c | c in k.p.children[r]
      ensures c !in k.p.freePcbs && (c in k.p.zombies <==> k.p.pcbs[c].status == Zombie)
    {
      ChildInUse(k.p, r, c);
      PlaceByStatus(k.p, WaiterBag(k.x), c);
    }
  }

  /** The scan stops at the first match, or at the end. */
  lemma {:induction false} ScanFirst(s: Proc, cs: seq<Block>, pid: int)
    requires cs != []
    ensures var i := Awaited(s, cs, pid);
            && (forall j :: 0 <= j < i ==> !Matches(s, cs[j], pid)) && (Matches(s, cs[i], pid) || i == |cs| - 1)
  {
    if !Matches(s, cs[0], pid) && |cs| > 1 {
      ScanFirst(s, cs[1..], pid);
      forall j | 0 <= j < Awaited(s, cs, pid)
        ensures !Matches(s, cs[j], pid)
      {
        if j > 0 { assert cs[j] == cs[1..][j - 1]; }
      }
    }
  }

  lemma ChildrenOnce(k: Kern, p: Block)
    requires KernInv(k)
    ensures NoDuplicates(k.p.children[p])
  {
    ChildrenDistinct(k.p, p);
  }

  /** What becomes of the child the scan stops at. */
  lemma WaitAbout(k: Kern, pid: int, result: int)
    requires KernInv(k) && Enabled(k, WaitCall(pid, result)) && k.p.children[k.p.running.p] != []
    ensures var cs := k.p.children[k.p.running.p];
            AnswersFor(k, Next(k, WaitCall(pid, result)), pid, result, cs[Awaited(k.p, cs, pid)])
  {
    hide KernInv, Awaited;
    var r, cs := k.p.running.p, k.p.children[k.p.running.p];
    var i := Awaited(k.p, cs, pid);
    SameScan(k.p, RecordCall(k, WaitCall(pid, result)).p, cs, pid);
    ChildFacts(k, r);
    CallerNotFree(k);
    ChildrenOnce(k, r);
    RemoveIndex(cs, i);
    if k.p.pcbs[cs[i]].status != Zombie {
      WaitBlocks(k, pid, result, i);
    }
  }

  lemma WaitBlocks(k: Kern, pid: int, result: int, i: nat)
    requires Enabled(k, WaitCall(pid, result)) && k.p.children[k.p.running.p] != []
    requires i == Awaited(RecordCall(k, WaitCall(pid, result)).p, k.p.children[k.p.running.p], pid)
    requires k.p.pcbs[k.p.children[k.p.running.p][i]].status != Zombie
    ensures Blocked(k, Next(k, WaitCall(pid, result)), pid, result)
  {
    hide Awaited;
  }

  lemma {:induction false} SameScan(s: Proc, t: Proc, cs: seq<Block>, pid: int)
    requires cs != [] && forall p: Block :: t.pcbs[p].pid == s.pcbs[p].pid && t.pcbs[p].status == s.pcbs[p].status
    ensures Awaited(s, cs, pid) == Awaited(t, cs, pid)
  {
    if |cs| > 1 {
      SameScan(s, t, cs[1..], pid);
    }
  }

  // ---- exit

  /** The parent is blocked in a wait for any child, or for this one. */
  predicate ParentWaits(s: Proc)
    requires s.running.Ref? && s.pcbs[s.running.p].parent.Ref?
  {
    var parent := s.pcbs[s.pcbs[s.running.p].parent.p];
    parent.status == Waiting && parent.syscallNum == CALL_WAIT && parent.arg0 in {0, s.pcbs[s.running.p].pid}
  }

  /** A childless process exits with `value`. If its parent waits for it, the parent goes on at once: it gets the pid,
      and the value where its own call pointed; the PCB is free. Otherwise the process stays as a zombie with the value,
      and the first ready process runs. Either way SIGCHLD becomes pending for the parent if it does not mask it. */
  lemma ExitEffect(k: Kern, value: int)
    requires KernInv(k) && Enabled(k, ExitCall(value))
    ensures var t, r := Next(k, ExitCall(value)), k.p.running.p;
            var q := k.p.pcbs[r].parent.p; var record := ExitRecord(k.p.pcbs[r].pid, value, k.p.pcbs[q].pid);
            && t.x == k.x && q != r && GotSignal(k.p.pcbs[q], t.p.pcbs[q], SIGCHLD)
            && t.p.pcbs[r] ==
               k.p.pcbs[r].(syscallNum := CALL_EXIT, arg0 := value, returnValue := value, status := Zombie)
            && if ParentWaits(k.p) then
                 && t.p == k.p.(running := Ref(q), waiting := Remove(k.p.waiting, q),
                                children := k.p.children[q := Remove(k.p.children[q], r)],
                                freePcbs := [r] + k.p.freePcbs,
                                memory := if k.p.pcbs[q].arg1 == 0 then k.p.memory
                                          else k.p.memory[k.p.pcbs[q].arg1 := value],
                                exited := k.p.exited + [record], delivered := k.p.delivered + [record],
                                pcbs := t.p.pcbs)
                 && t.p.pcbs[q] ==
                    k.p.pcbs[q].(status := Running, retvalue := k.p.pcbs[r].pid, signals := t.p.pcbs[q].signals)
                 && OtherPcbs(k.p, t.p, q, r)
               else
                 && k.p.ready != []
                 && t.p == k.p.(running := Ref(k.p.ready[0]), ready := k.p.ready[1..], zombies := k.p.zombies + [r],
                                exited := k.p.exited + [record], pcbs := t.p.pcbs)
                 && forall p: Block :: p != r ==>
                      t.p.pcbs[p] ==
                      k.p.pcbs[p].(status := if p == k.p.ready[0] then Running else k.p.pcbs[p].status,
                                   signals := if p == q then t.p.pcbs[q].signals else k.p.pcbs[p].signals)
  {
    hide KernInv, GotSignal, Signalled, Reparent, Exit, Remove;
    RecordCallKeepsInv(k, ExitCall(value));
    var s := RecordCall(k, ExitCall(value)).p;
    ExitFacts(RecordCall(k, ExitCall(value)));
    var q := k.p.pcbs[k.p.running.p].parent.p;
    GotSameSignals(s.pcbs[q], Exit(s).pcbs[q], k.p.pcbs[q], Exit(s).pcbs[q], SIGCHLD);
  }

  lemma ExitFacts(k: Kern)
    requires KernInv(k) && CanExit(k.p) && k.p.children[k.p.running.p] == []
    ensures var s, r := k.p, k.p.running.p; var q, t := s.pcbs[r].parent.p, Exit(s);
            var record := ExitRecord(s.pcbs[r].pid, s.pcbs[r].arg0, s.pcbs[q].pid);
            && q != r && GotSignal(s.pcbs[q], t.pcbs[q], SIGCHLD)
            && t.pcbs[r] == s.pcbs[r].(returnValue := s.pcbs[r].arg0, status := Zombie)
            && if ParentWaits(s) then
                 && t == s.(running := Ref(q), waiting := Remove(s.waiting, q),
                            children := s.children[q := Remove(s.children[q], r)], freePcbs := [r] + s.freePcbs,
                            memory := if s.pcbs[q].arg1 == 0 then s.memory
                                      else s.memory[s.pcbs[q].arg1 := s.pcbs[r].arg0],
                            exited := s.exited + [record], delivered := s.delivered + [record], pcbs := t.pcbs)
                 && t.pcbs[q] == s.pcbs[q].(status := Running, retvalue := s.pcbs[r].pid, signals := t.pcbs[q].signals)
                 && OtherPcbs(s, t, q, r)
               else
                 && s.ready != []
                 && t == s.(running := Ref(s.ready[0]), ready := s.ready[1..], zombies := s.zombies + [r],
                            exited := s.exited + [record], pcbs := t.pcbs)
                 && forall p: Block :: p != r ==>
                      t.pcbs[p] == s.pcbs[p].(status := if p == s.ready[0] then Running else s.pcbs[p].status,
                                              signals := if p == q then t.pcbs[q].signals else s.pcbs[p].signals)
  {
    hide Inv, GotSignal, Signalled, Reparent, Remove, SemInv;
    var s, sw := k.p, WaiterBag(k.x);
    var r, q := s.running.p, s.pcbs[s.running.p].parent.p;
    DyingFacts(s, sw);
    ParentSignalled(s, sw);
    CallerNotFree(k);
    if ParentWaits(s) {
      HandOffEffect(s, sw);
    } else {
      ExitToZombieEffect(s, sw);
    }
  }

  // ---- preempt and the timer interrupt

  /** The items back to front. */
  function Back(l: seq<Block>): seq<Block> {
    if l == [] then [] else Back(l[1..]) + [l[0]]
  }

  /** What the wake-up loop leaves alone, and that the timer blocks go back one by one. */
  lemma {:induction false} WakeDueFrame(s: Proc, n: nat)
    requires n <= |s.ready| && Sorted(s.timers)
    ensures var t := WakeDue(s, n);
            t == s.(waiting := t.waiting, ready := t.ready, timers := t.timers, pcbs := t.pcbs,
                    freeTimers := Back(TimerBlocks(Due(s.timers, s.time))) + s.freeTimers)
    decreases |s.timers|
  {
    hide Due, Back, TimerBlocks, Sorted, Remove;
    if s.timers != [] && s.time >= s.timers[0].time {
      var u := WakeFirst(s, n);
      SortedTail(s.timers);
      WakeDueFrame(u, n + 1);
      BackDue(s.timers, s.time, s.freeTimers);
    } else {
      NoneDueBack(s.timers, s.time, s.freeTimers);
    }
  }

  lemma BackDue(ts: seq<Timer>, now: int, free: seq<Block>)
    requires ts != [] && ts[0].time <= now
    ensures Back(TimerBlocks(Due(ts, now))) + free == Back(TimerBlocks(Due(ts[1..], now))) + ([ts[0].block] + free)
  {
    var due := Due(ts, now);
    assert TimerBlocks(due)[1..] == TimerBlocks(due[1..]);
  }

  lemma NoneDueBack(ts: seq<Timer>, now: int, free: seq<Block>)
    requires Sorted(ts) && (ts == [] || ts[0].time > now)
    ensures Back(TimerBlocks(Due(ts, now))) + free == free
  {
    NoneDue(ts, now);
  }

  /** schedule, at a given time: the sleepers whose timers are due go to the front of the ready list, in timer order,
      and their timer blocks are free; then the first ready process is Running, and the caller, Ready, is last. */
  ghost predicate Scheduled(s: Proc, t: Proc)
    requires s.running.Ref?
  {
    var due := Due(s.timers, s.time);
    && t == s.(running := t.running, ready := t.ready, waiting := Without(s.waiting, Pcbs(due)),
               timers := Later(s.timers, s.time), freeTimers := Back(TimerBlocks(due)) + s.freeTimers, pcbs := t.pcbs)
    && MovedUp(s, t, Pcbs(due), Pcbs(due) + s.ready)
  }

  /** The queue is where the processes woken and those ready stand before the first of them gets its turn. */
  ghost predicate MovedUp(s: Proc, t: Proc, woken: seq<Block>, queue: seq<Block>)
    requires s.running.Ref?
  {
    && t.running == (if queue == [] then s.running else Ref(queue[0]))
    && t.ready == (if queue == [] then [] else queue[1..] + [s.running.p])
    && forall p: Block ::
         t.pcbs[p] == s.pcbs[p].(status := if queue == [] then s.pcbs[p].status
                                           else if p == queue[0] then Running
                                           else if p == s.running.p || p in woken then Ready
                                           else s.pcbs[p].status)
  }

  lemma RotateIs(s: Proc, u: Proc, woken: seq<Block>, queue: seq<Block>)
    requires s.running.Ref? && u.running == s.running && u.ready == queue && s.running.p !in queue
    requires forall p: Block ::
               u.pcbs[p] == if p in woken then s.pcbs[p].(status := Ready, timer := Null) else s.pcbs[p]
    requires (forall p: Block :: s.pcbs[p].timer == Null) && (queue == [] ==> woken == [])
    ensures MovedUp(s, Rotate(u), woken, queue)
    ensures Rotate(u) == u.(running := Rotate(u).running, ready := Rotate(u).ready, pcbs := Rotate(u).pcbs)
  {
  }

  lemma ScheduleIs(s: Proc, sw: multiset<Block>)
    requires Inv(s, sw) && s.running.Ref?
    ensures Scheduled(s, Schedule(s))
  {
    hide Inv, WakeDue, Due, Later, Pcbs, Without, Back, TimerBlocks, Rotate, MovedUp;
    TimersUnset(s, sw);
    DueApart(s, sw);
    WakesExactly(s, sw);
    WakeDueFrame(s, 0);
    var due := Pcbs(Due(s.timers, s.time));
    assert s.ready[..0] + due + s.ready[0..] == due + s.ready;
    RotateIs(s, WakeDue(s, 0), due, due + s.ready);
  }

  lemma TimersUnset(s: Proc, sw: multiset<Block>)
    requires Inv(s, sw)
    ensures Sorted(s.timers) && forall p: Block :: s.pcbs[p].timer == Null
  {
  }

  lemma DueApart(s: Proc, sw: multiset<Block>)
    requires Inv(s, sw) && s.running.Ref?
    ensures s.running.p !in Pcbs(Due(s.timers, s.time)) + s.ready
  {
    PlacesApart(s);
    NotWaiting(s, sw, s.running.p);
    DuePcbs(s.timers, s.time);
  }

  lemma DuePcbs(ts: seq<Timer>, now: int)
    ensures forall p :: p in Pcbs(Due(ts, now)) ==> p in Pcbs(ts)
  {
    hide Due;
    DueAndLater(ts, now);
    forall p | p in Pcbs(Due(ts, now))
      ensures p in Pcbs(ts)
    {
      var i :| 0 <= i < |Due(ts, now)| && Pcbs(Due(ts, now))[i] == p;
      assert Due(ts, now)[i] in ts;
      var j :| 0 <= j < |ts| && ts[j] == Due(ts, now)[i];
      assert Pcbs(ts)[j] == p;
    }
  }

  /** A preempt call schedules. */
  lemma PreemptEffect(k: Kern)
    requires KernInv(k) && k.p.running.Ref?
    ensures Enabled(k, PreemptCall)
    ensures var r := k.p.running.p; var s := k.p.(pcbs := k.p.pcbs[r := k.p.pcbs[r].(syscallNum := CALL_PREEMPT)]);
            Scheduled(s, Next(k, PreemptCall).p) && Next(k, PreemptCall).x == k.x
  {
    hide Inv, Schedule, Scheduled, SemInv;
    RecordCallKeepsInv(k, PreemptCall);
    ScheduleIs(RecordCall(k, PreemptCall).p, WaiterBag(k.x));
  }

  /** A timer interrupt advances the time by one, and schedules. */
  lemma InterruptEffect(k: Kern)
    requires KernInv(k) && k.p.running.Ref?
    ensures Enabled(k, Interrupt)
    ensures Scheduled(k.p.(time := k.p.time + 1), Next(k, Interrupt).p) && Next(k, Interrupt).x == k.x
  {
    hide Inv, Schedule, Scheduled, SemInv;
    TimeKeepsInv(k.p, WaiterBag(k.x));
    ScheduleIs(k.p.(time := k.p.time + 1), WaiterBag(k.x));
  }
}
