/** Which message queues the kernel can still unlink, by the processes there are and in the order the scheduler lets
    them run. */
module SystemUnlinking {
  import opened Bags
  import opened Timers
  import opened Processes
  import opened ProcessLaws
  import opened SystemRuns
  import opened SystemParts
  import opened SystemDeaths
  import opened SystemAbandoned
  import opened Scheduling
  import SemaphoreLaws
  import KernelRuns
  import MessageQueues
  import MessageQueueLaws
  import MessageQueueRuns
  import MessageQueueReads
  import MessageQueueOrphans
  import MessageQueueUnlinking
  import ResourceLaws
  import SystemTheorems

  // ---- making a process run

  predicate Runnable(p: Proc, b: Block) {
    p.running == Ref(b) || b in p.ready
  }

  /** Those who could run in s still can in t, and one of them runs. */
  ghost predicate KeepsRunnable(s: System, t: System) {
    t.k.p.running.Ref? && forall b: Block :: Runnable(s.k.p, b) ==> Runnable(t.k.p, b)
  }

  const TICK := KernelCall(KernelRuns.Interrupt)

  lemma TickKeepsRunnable(p: Proc, sw: multiset<Block>, b: Block)
    requires Inv(p, sw) && p.running.Ref? && Runnable(p, b)
    ensures Runnable(Tick(p), b)
  {
    hide Inv, Schedule, Runnable, Due, Pcbs;
    var p1 := p.(time := p.time + 1);
    TimeKeepsInv(p, sw);
    ScheduleComputes(p1, sw);
    RotationKeepsRunnable(p, Tick(p), Pcbs(Due(p1.timers, p1.time)), b);
  }

  /** What schedule makes of the ready list, in front of which the woken processes are. */
  lemma RotationKeepsRunnable(p: Proc, t: Proc, due: seq<Block>, b: Block)
    requires p.running.Ref? && Runnable(p, b)
    requires t.running == if due + p.ready == [] then p.running else Ref((due + p.ready)[0])
    requires t.ready == if due + p.ready == [] then [] else (due + p.ready)[1..] + [p.running.p]
    ensures Runnable(t, b)
  {
    var queue := due + p.ready;
    if b in p.ready {
      assert b in queue;
      assert queue == [queue[0]] + queue[1..];
    } else if queue != [] {
      assert t.ready[|queue| - 1] == b;
    }
  }

  lemma Ticked(s: System) returns (t: System)
    requires SysInv(s) && s.k.p.running.Ref?
    ensures Leads(s, TICK, t) && t.k.p == Tick(s.k.p) && t.mail == s.mail && KeepsRunnable(s, t)
  {
    hide KernelRuns.KernInv, MessageQueueLaws.MailInv, ResourceLaws.RegInv, Next, Tick;
    t := Next(s, TICK);
    KernelParts(s, KernelRuns.Interrupt);
    forall b: Block | Runnable(s.k.p, b)
      ensures Runnable(t.k.p, b)
    {
      TickIn(s, b);
    }
    assert ScheduleOnce(s.k.p, true).running.Ref?;
  }

  lemma TickIn(s: System, b: Block)
    requires SysInv(s) && s.k.p.running.Ref? && Runnable(s.k.p, b)
    ensures Runnable(Tick(s.k.p), b)
  {
    hide Inv, Runnable, Tick, MessageQueueLaws.MailInv, ResourceLaws.RegInv;
    TickKeepsRunnable(s.k.p, SemaphoreLaws.WaiterBag(s.k.x), b);
  }

  /** n timer interrupts. */
  lemma {:induction false} Ticks(s: System, n: nat) returns (calls: seq<Call>, t: System)
    requires SysInv(s) && s.k.p.running.Ref?
    ensures Runs(s, calls, t) && SysInv(t) && t.k.p == ScheduleAll(s.k.p, seq(n, _ => true))
    ensures t.mail == s.mail && KeepsRunnable(s, t)
    decreases n
  {
    hide SysInv, Next, Enabled, ScheduleOnce, Runnable;
    if n == 0 {
      calls, t := [], s;
    } else {
      var s1 := Ticked(s);
      var rest, u := Ticks(s1, n - 1);
      FirstCall(s, TICK, s1, rest, u);
      calls, t := [TICK] + rest, u;
      assert seq(n, _ => true)[1..] == seq(n - 1, _ => true);
      assert seq(n, _ => true)[0];
      OneTick(s.k.p);
    }
  }

  lemma OneTick(p: Proc)
    requires p.running.Ref?
    ensures ScheduleOnce(p, true) == Tick(p)
  {
  }

  /** The timer alone lets a ready process run, sooner or later. */
  lemma MakeRun(s: System, b: Block) returns (calls: seq<Call>, t: System)
    requires SysInv(s) && s.k.p.running.Ref? && Runnable(s.k.p, b)
    ensures Runs(s, calls, t) && SysInv(t) && t.k.p.running == Ref(b) && t.mail == s.mail && KeepsRunnable(s, t)
  {
    hide KernelRuns.KernInv, MessageQueueLaws.MailInv, ResourceLaws.RegInv, Next, Enabled;
    if s.k.p.running == Ref(b) {
      calls, t := Ticks(s, 0);
    } else {
      var k :| 0 <= k < |s.k.p.ready| && s.k.p.ready[k] == b;
      var n := TurnsTo(s, k);
      calls, t := Ticks(s, n);
    }
  }

  lemma TurnsTo(s: System, k: nat) returns (n: nat)
    requires SysInv(s) && s.k.p.running.Ref? && k < |s.k.p.ready|
    ensures ScheduleAll(s.k.p, seq(n, _ => true)).running == Ref(s.k.p.ready[k])
  {
    hide Inv, ScheduleAll, MessageQueueLaws.MailInv, ResourceLaws.RegInv;
    var all := seq(k + 1 + |s.k.p.timers|, _ => true);
    n := RoundRobinBound(s.k.p, SemaphoreLaws.WaiterBag(s.k.x), all, k);
    assert all[..n] == seq(n, _ => true);
  }

  // ---- steps of the message queues as calls

  /** The call that is this step, made by whoever runs. */
  function CallOf(step: MessageQueueRuns.MailStep): Call
    requires !step.NewProcessStep?
  {
    match step
    case OpenStep(_, id, flags, priority) => MqOpen(id, flags, priority)
    case WriteStep(_, fd, text, length, priority) => MqWrite(fd, text, length, priority)
    case ReadStep(_, fd, bufSize) => MqRead(fd, 0, bufSize, 0)
    case CloseStep(_, fd) => MqClose(fd)
    case UnlinkStep(id) => MqUnlink(id)
  }

  lemma CallDoes(s: System, step: MessageQueueRuns.MailStep) returns (t: System)
    requires SysInv(s) && s.k.p.running.Ref? && !step.NewProcessStep? && MessageQueueRuns.Permitted(s.mail, step)
    requires !step.UnlinkStep? ==> s.k.p.running == Ref(step.p)
    ensures Leads(s, CallOf(step), t) && t.mail == MessageQueueRuns.After(s.mail, step) && KeepsRunnable(s, t)
  {
    hide KernelRuns.KernInv, MessageQueueLaws.MailInv, ResourceLaws.RegInv, Next, MessageQueueRuns.After;
    t := Next(s, CallOf(step));
    MailStepsDo(s, CallOf(step));
    OnlyRegisters(s, CallOf(step));
  }

  ghost predicate AllRunnable(s: System, actors: set<Block>) {
    s.k.p.running.Ref? && forall b :: b in actors ==> Runnable(s.k.p, b)
  }

  lemma DoStep(s: System, step: MessageQueueRuns.MailStep, actors: set<Block>) returns (calls: seq<Call>, t: System)
    requires SysInv(s) && AllRunnable(s, actors)
    requires MessageQueueRuns.Permitted(s.mail, step) && MessageQueueUnlinking.ActedBy(step, actors)
    ensures Runs(s, calls, t) && SysInv(t) && AllRunnable(t, actors)
    ensures t.mail == MessageQueueRuns.After(s.mail, step)
  {
    hide SysInv, Next, Enabled, Runnable, MessageQueueRuns.After, MessageQueueRuns.Permitted;
    if step.UnlinkStep? {
      t := CallDoes(s, step);
      OneCall(s, CallOf(step), t);
      calls := [CallOf(step)];
    } else {
      var ticks, s1 := MakeRun(s, step.p);
      t := CallDoes(s1, step);
      OneCall(s1, CallOf(step), t);
      RunsOn(s, ticks, s1, [CallOf(step)], t);
      calls := ticks + [CallOf(step)];
    }
  }

  lemma {:induction false} DoSteps(s: System, steps: seq<MessageQueueRuns.MailStep>, actors: set<Block>)
    returns (calls: seq<Call>, t: System)
    requires SysInv(s) && AllRunnable(s, actors)
    requires MessageQueueRuns.Legal(s.mail, steps) && MessageQueueUnlinking.AllActedBy(steps, actors)
    ensures Runs(s, calls, t) && t.mail == MessageQueueRuns.Run(s.mail, steps)
    decreases |steps|
  {
    hide SysInv, Next, Enabled, AllRunnable, MessageQueueRuns.After, MessageQueueUnlinking.ActedBy;
    if steps == [] {
      calls, t := [], s;
    } else {
      var first, s1 := DoStep(s, steps[0], actors);
      var rest, u := DoSteps(s1, steps[1..], actors);
      RunsOn(s, first, s1, rest, u);
      calls, t := first + rest, u;
    }
  }

  // ---- what the kernel can unlink

  /** Some run of the kernel unlinks m. */
  ghost predicate KernelUnlinks(s: System, m: MessageQueues.MqBlock) {
    exists calls, t :: Runs(s, calls, t) && m !in t.mail.mqList
  }

  function Those(p: Proc, n: nat, runnable: bool): (r: set<Block>)
    requires n <= MAX_NUM_PROCESSES
    ensures forall b: Block :: b in r <==> b < n && if runnable then Runnable(p, b) else !Dead(p, b)
  {
    if n == 0 then {}
    else
      var rest := Those(p, n - 1, runnable);
      if (if runnable then Runnable(p, n - 1) else !Dead(p, n - 1)) then rest + {n - 1} else rest
  }

  /** The PCBs whose processes can run now, and those whose processes are alive. */
  function RunnablePcbs(p: Proc): (r: set<Block>)
    ensures forall b: Block :: b in r <==> Runnable(p, b)
  {
    Those(p, MAX_NUM_PROCESSES, true)
  }

  function LivePcbs(p: Proc): (r: set<Block>)
    ensures forall b: Block :: b in r <==> !Dead(p, b)
  {
    Those(p, MAX_NUM_PROCESSES, false)
  }

  /** If processes that can run now can unlink m by calls in any order, the kernel can: the scheduler lets each of them
      run in turn. */
  lemma RunnableUnlink(s: System, m: MessageQueues.MqBlock)
    requires SysInv(s) && s.k.p.running.Ref?
    requires MessageQueueUnlinking.CanUnlinkBy(s.mail, m, RunnablePcbs(s.k.p))
    ensures KernelUnlinks(s, m)
  {
    hide SysInv, MessageQueueRuns.Legal, MessageQueueRuns.Run, MessageQueueUnlinking.AllActedBy, Runs, RunnablePcbs;
    var actors := RunnablePcbs(s.k.p);
    var steps :| MessageQueueRuns.Legal(s.mail, steps) && MessageQueueUnlinking.AllActedBy(steps, actors)
                 && m !in MessageQueueRuns.Run(s.mail, steps).mqList;
    var calls, t := DoSteps(s, steps, actors);
  }

  // ---- what it cannot

  ghost predicate NoneAbandoned(s: System, m: MessageQueues.MqBlock) {
    forall d: Block :: !Abandoned(s, m, d)
  }

  lemma NoneAbandonedIff(s: System, m: MessageQueues.MqBlock)
    ensures NoneAbandoned(s, m) <==>
              && MessageQueueUnlinking.NoOrphan(s.mail, m)
              && MessageQueueUnlinking.OwnersIn(s.mail, m, LivePcbs(s.k.p))
  {
    hide LivePcbs, Dead;
    if NoneAbandoned(s, m) {
      forall d: Block
        ensures !MessageQueueOrphans.Orphan(s.mail, m, d)
        ensures d in s.mail.descsOf[m] ==> s.mail.descs[d].owner in LivePcbs(s.k.p)
      {
        assert !Abandoned(s, m, d);
      }
    } else {
      var d: Block :| Abandoned(s, m, d);
      assert MessageQueueOrphans.Orphan(s.mail, m, d) || s.mail.descs[d].owner !in LivePcbs(s.k.p);
    }
  }

  /** A live process has a descriptor, or can have one. */
  ghost predicate LiveReader(s: System) {
    MessageQueueUnlinking.DescriptorFor(s.mail, LivePcbs(s.k.p))
  }

  /** Without one, nobody ever reads. */
  lemma NobodyReads(s: System, call: Call, m: MessageQueues.MqBlock)
    requires SysInv(s) && Enabled(s, call) && m in s.mail.mqList && s.mail.nums[m] != 0 && !LiveReader(s)
    ensures var t := Next(s, call); m in t.mail.mqList && t.mail.nums[m] != 0 && !LiveReader(t)
  {
    hide KernelRuns.KernInv, MessageQueueLaws.MailInv, ResourceLaws.RegInv, Next, LivePcbs, Dead;
    hide MessageQueueRuns.After, MessageQueueRuns.Permitted;
    var t, live := Next(s, call), LivePcbs(s.k.p);
    CallerAlive(s);
    MailStepsDo(s, call);
    forall b: Block
      ensures b in LivePcbs(t.k.p) ==> b in live || Starts(s, call, b)
    {
      DeadIff(s, call, b);
    }
    if MailSteps(s, call) != [] {
      var step := MailSteps(s, call)[0];
      if step.NewProcessStep? {
        ResetOwned(s.mail, step.p);
      } else {
        MessageQueueUnlinking.NoneOfThemReads(s.mail, step, m, live);
      }
    }
  }

  lemma ResetOwned(mail: MessageQueues.Mail, c: Block)
    ensures var t := MessageQueueRuns.After(mail, MessageQueueRuns.NewProcessStep(c));
            t == mail.(owned := mail.owned[c := []], lastFd := mail.lastFd[c := 0])
  {
  }

  lemma {:induction false} NobodyEverReads(s: System, calls: seq<Call>, m: MessageQueues.MqBlock)
    requires SysInv(s) && Legal(s, calls) && m in s.mail.mqList && s.mail.nums[m] != 0 && !LiveReader(s)
    ensures m in Run(s, calls).mail.mqList
    decreases |calls|
  {
    hide SysInv, Next, Enabled, LiveReader;
    if calls != [] {
      NobodyReads(s, calls[0], m);
      NobodyEverReads(Next(s, calls[0]), calls[1..], m);
    }
  }

  /** The kernel can unlink m only if nothing in it is stuck, none of its descriptors is abandoned, and, if it has
      messages, a live process has a descriptor or can have one. */
  lemma KernelUnlinkNeeds(s: System, m: MessageQueues.MqBlock)
    requires SysInv(s) && m in s.mail.mqList && KernelUnlinks(s, m)
    ensures MessageQueueReads.Stuck(s.mail, m) == 0 && NoneAbandoned(s, m) && (s.mail.nums[m] == 0 || LiveReader(s))
  {
    hide SysInv, Legal, Run, LiveReader, Abandoned, MessageQueueReads.Stuck;
    var calls, t :| Runs(s, calls, t) && m !in t.mail.mqList;
    if d: Block :| Abandoned(s, m, d) {
      AbandonedForever(s, calls, m, d);
    }
    MessageQueueUnlinking.StuckNotNegative(s.mail, m);
    if MessageQueueReads.Stuck(s.mail, m) > 0 {
      SystemTheorems.StuckForever(s, calls, m);
    }
    if s.mail.nums[m] != 0 && !LiveReader(s) {
      NobodyEverReads(s, calls, m);
    }
  }

  /** No blocked process has a message queue open. */
  ghost predicate NoneBlocked(s: System) {
    s.k.p.running.Ref? && forall p :: p in s.k.p.waiting ==> s.mail.owned[p] == []
  }

  lemma LiveOrBlocked(s: System, b: Block)
    requires SysInv(s) && !Dead(s.k.p, b)
    ensures Runnable(s.k.p, b) || b in s.k.p.waiting
  {
    hide MessageQueueLaws.MailInv, ResourceLaws.RegInv;
    OnePlace(s.k.p, b);
    assert b in s.k.p.ready <==> multiset(s.k.p.ready)[b] > 0;
    assert b in s.k.p.waiting <==> multiset(s.k.p.waiting)[b] > 0;
    assert b in s.k.p.zombies <==> multiset(s.k.p.zombies)[b] > 0;
    assert b in s.k.p.freePcbs <==> multiset(s.k.p.freePcbs)[b] > 0;
  }

  /** Then those who have descriptors can run. */
  lemma LiveAreRunnable(s: System, m: MessageQueues.MqBlock)
    requires SysInv(s) && NoneBlocked(s) && NoneAbandoned(s, m)
    ensures MessageQueueUnlinking.OwnersIn(s.mail, m, RunnablePcbs(s.k.p))
    ensures LiveReader(s) ==> MessageQueueUnlinking.DescriptorFor(s.mail, RunnablePcbs(s.k.p))
  {
    hide KernelRuns.KernInv, MessageQueueLaws.MailInv, ResourceLaws.RegInv, RunnablePcbs, LivePcbs, Dead;
    forall d | d in s.mail.descsOf[m]
      ensures s.mail.descs[d].owner in RunnablePcbs(s.k.p)
    {
      assert !Abandoned(s, m, d);
      LiveOrBlocked(s, s.mail.descs[d].owner);
    }
    if LiveReader(s) {
      var p :| p in LivePcbs(s.k.p) && (s.mail.owned[p] != [] || s.mail.freeDescs != []);
      LiveOrBlocked(s, p);
      assert s.k.p.running.p in RunnablePcbs(s.k.p);
    }
  }

  /** And if no blocked process has a message queue open, the kernel can unlink m exactly then. */
  lemma KernelUnlinksIff(s: System, m: MessageQueues.MqBlock)
    requires SysInv(s) && MessageQueueUnlinking.Nameable(s.mail) && m in s.mail.mqList && NoneBlocked(s)
    ensures KernelUnlinks(s, m) <==>
              && MessageQueueReads.Stuck(s.mail, m) == 0 && NoneAbandoned(s, m)
              && (s.mail.nums[m] == 0 || LiveReader(s))
  {
    hide KernelRuns.KernInv, MessageQueueLaws.MailInv, ResourceLaws.RegInv, KernelUnlinks, LiveReader, NoneAbandoned;
    hide MessageQueueReads.Stuck, MessageQueueUnlinking.Nameable, NoneBlocked;
    if KernelUnlinks(s, m) {
      KernelUnlinkNeeds(s, m);
    } else if MessageQueueReads.Stuck(s.mail, m) == 0 && NoneAbandoned(s, m)
              && (s.mail.nums[m] == 0 || LiveReader(s)) {
      LiveAreRunnable(s, m);
      NoneAbandonedIff(s, m);
      SomebodyRuns(s);
      MessageQueueUnlinking.UnlinkableByIff(s.mail, m, RunnablePcbs(s.k.p));
      RunnableUnlink(s, m);
    }
  }

  lemma SomebodyRuns(s: System)
    requires NoneBlocked(s)
    ensures s.k.p.running.Ref?
  {
  }

  /** So it is in every state that the kernel can reach. */
  lemma ReachableKernelUnlinksIff(s: System, calls: seq<Call>, t: System, m: MessageQueues.MqBlock)
    requires Boot(s) && Runs(s, calls, t) && SysInv(t) && m in t.mail.mqList && NoneBlocked(t)
    ensures KernelUnlinks(t, m) <==>
              && MessageQueueReads.Stuck(t.mail, m) == 0 && NoneAbandoned(t, m)
              && (t.mail.nums[m] == 0 || LiveReader(t))
  {
    hide KernelRuns.KernInv, MessageQueueLaws.MailInv, ResourceLaws.RegInv, KernelUnlinks, LiveReader, NoneAbandoned;
    hide MessageQueueReads.Stuck, MessageQueueUnlinking.Nameable, NoneBlocked, Legal, Run, MessageQueueRuns.Boot;
    hide MessageQueueRuns.Legal, MessageQueueRuns.Run;
    MailProjects(s, calls);
    BootNameable(s.mail);
    MessageQueueUnlinking.RunNameable(s.mail, MailRun(s, calls));
    KernelUnlinksIff(t, m);
  }

  lemma BootNameable(mail: MessageQueues.Mail)
    requires MessageQueueRuns.Boot(mail)
    ensures MessageQueueUnlinking.Nameable(mail)
  {
  }
}
