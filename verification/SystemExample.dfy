/** Runs of the whole kernel from the start after which a resource can never be destroyed, and a message queue never
    unlinked: their descriptors belonged to a process that has exited. */
module SystemExample {
  import opened Bags
  import opened Timers
  import opened Processes
  import opened SystemRuns
  import opened SystemParts
  import opened SystemAbandoned
  import opened SystemUnlinking
  import opened SystemTheorems
  import opened KernelExample
  import KernelRuns
  import MessageQueues
  import MessageQueueLaws
  import MessageQueueRuns
  import MessageQueueOpening
  import MessageQueueOrphans
  import Resources
  import ResourceLaws
  import ResourceRuns
  import ResourceOrphans

  lemma TwoCalls(s: System, a: Call, s1: System, b: Call, t: System)
    requires Leads(s, a, s1) && Leads(s1, b, t)
    ensures Runs(s, [a, b], t)
  {
    hide Leads, Runs;
    OneCall(s1, b, t);
    FirstCall(s, a, s1, [b], t);
    assert [a] + [b] == [a, b];
  }

  lemma FourCalls(s: System, a: Call, s1: System, b: Call, s2: System, c: Call, s3: System, d: Call, t: System)
    requires Leads(s, a, s1) && Leads(s1, b, s2) && Leads(s2, c, s3) && Leads(s3, d, t)
    ensures Runs(s, [a, b, c, d], t)
  {
    hide Leads, Runs;
    TwoCalls(s2, c, s3, d, t);
    FirstCall(s1, b, s2, [c, d], t);
    assert [b] + [c, d] == [b, c, d];
    FirstCall(s, a, s1, [b, c, d], t);
    assert [a] + [b, c, d] == [a, b, c, d];
  }

  const SPAWN := KernelCall(KernelRuns.SpawnCall(0, 0))
  const PREEMPT := KernelCall(KernelRuns.PreemptCall)
  const EXIT := KernelCall(KernelRuns.ExitCall(5))
  const WAIT := KernelCall(KernelRuns.WaitCall(0, 0))
  const OPEN_RESOURCE := OpenResource(5, 0, 1)
  const OPEN_MQ := MqOpen(7, 1, 1)

  /** init and process 1, in PCB 1, and nothing open. */
  ghost predicate Fresh(s: System, running: Block, ready: seq<Block>, waiting: seq<Block>) {
    && Lists(s.k.p, running, ready, waiting, []) && Two(s.k.p)
    && ResourceRuns.Boot(s.reg) && MessageQueueRuns.Boot(s.mail)
  }

  lemma Spawned(s: System) returns (t: System)
    requires SysInv(s) && Boot(s)
    ensures Leads(s, SPAWN, t) && Fresh(t, 0, [1], []) && t.k.p.pcbs[1].status == Ready
  {
    hide KernelRuns.KernInv, MessageQueueLaws.MailInv, ResourceLaws.RegInv, Next;
    SpawnFirst(s.k);
    t := Next(s, SPAWN);
    KernelParts(s, KernelRuns.SpawnCall(0, 0));
    ResetFresh(s);
  }

  lemma ResetFresh(s: System)
    requires MessageQueueRuns.Boot(s.mail) && ResourceRuns.Boot(s.reg)
    ensures MessageQueues.NewProcess(s.mail, 1) == s.mail && Resources.NewProcess(s.reg, 1) == s.reg
  {
  }

  // ---- a resource

  lemma Preempted(s: System) returns (t: System)
    requires SysInv(s) && Fresh(s, 0, [1], [])
    ensures Leads(s, PREEMPT, t) && Fresh(t, 1, [0], []) && t.k.p.pcbs[0].status == Ready
  {
    hide KernelRuns.KernInv, MessageQueueLaws.MailInv, ResourceLaws.RegInv, Next;
    hide ResourceRuns.Boot, MessageQueueRuns.Boot;
    Switch(s.k, 0, 1);
    t := Next(s, PREEMPT);
    KernelParts(s, KernelRuns.PreemptCall);
  }

  /** PCB 1 owns the first descriptor, of the first resource. */
  ghost predicate OwnsResource(reg: Resources.Registry) {
    reg.ptrsOf[0] == [0] && reg.owned[1] == [0] && reg.descs[0].owner == 1
  }

  lemma FirstResource(reg: Resources.Registry)
    requires ResourceRuns.Boot(reg) && ResourceLaws.RegInv(reg)
    ensures ResourceRuns.Permitted(reg, ResourceRuns.OpenStep(1, 5, 0, 1))
    ensures OwnsResource(ResourceRuns.After(reg, ResourceRuns.OpenStep(1, 5, 0, 1)))
  {
    hide ResourceLaws.RegInv, AllOf;
    FirstFree(reg);
    assert CreateSet(1) && !ExclSet(1);
  }

  lemma FirstFree(s: Resources.Registry)
    requires ResourceRuns.Boot(s)
    ensures s.freeRes != [] && s.freeRes[0] == 0
    ensures s.freeDescs != [] && s.freeDescs[0] == 0
    ensures s.freePtrs != [] && s.freePtrs[0] == 0
  {
  }

  lemma ResourceOpened(s: System) returns (t: System)
    requires SysInv(s) && Fresh(s, 1, [0], []) && s.k.p.pcbs[0].status == Ready
    ensures Leads(s, OPEN_RESOURCE, t) && OwnsResource(t.reg)
    ensures Lists(t.k.p, 1, [0], [], []) && Two(t.k.p) && t.k.p.pcbs[0].status == Ready
  {
    hide KernelRuns.KernInv, MessageQueueLaws.MailInv, ResourceLaws.RegInv, Next;
    hide ResourceRuns.Boot, MessageQueueRuns.Boot, Resources.Open;
    FirstResource(s.reg);
    t := Next(s, OPEN_RESOURCE);
    OpenAnswers(s, 5, 0, 1);
    RegStepsDo(s, OPEN_RESOURCE);
  }

  lemma BecameZombie(s: System) returns (t: System)
    requires SysInv(s) && Lists(s.k.p, 1, [0], [], []) && Two(s.k.p) && s.k.p.pcbs[0].status == Ready
    requires OwnsResource(s.reg)
    ensures Leads(s, EXIT, t) && OwnsResource(t.reg)
    ensures Lists(t.k.p, 0, [], [], [1]) && t.k.p.children[0] == [1] && t.k.p.pcbs[1].pid == 1
    ensures t.k.p.pcbs[1].status == Zombie && t.k.p.freePtrs > 0
  {
    hide KernelRuns.KernInv, MessageQueueLaws.MailInv, ResourceLaws.RegInv, Next, OwnsResource;
    ExitToZombie(s.k, 5);
    t := Next(s, EXIT);
    KernelParts(s, KernelRuns.ExitCall(5));
    NobodyWaits(s);
  }

  lemma NobodyWaits(s: System)
    requires Lists(s.k.p, 1, [0], [], []) && Two(s.k.p) && s.k.p.pcbs[0].status == Ready
    requires KernelRuns.Enabled(s.k, KernelRuns.ExitCall(5))
    ensures Others(s, KernelRuns.ExitCall(5)) == (s.mail, s.reg)
  {
  }

  lemma Reaped(s: System) returns (t: System)
    requires SysInv(s) && Lists(s.k.p, 0, [], [], [1]) && s.k.p.children[0] == [1] && s.k.p.pcbs[1].pid == 1
    requires s.k.p.pcbs[1].status == Zombie && s.k.p.freePtrs > 0 && OwnsResource(s.reg)
    ensures Leads(s, WAIT, t) && ReapsOwner(s, WAIT) && OwnsResource(t.reg)
    ensures Lists(t.k.p, 0, [], [], []) && |t.k.p.freePcbs| > 0 && t.k.p.freePcbs[0] == 1 && t.k.p.freePtrs > 0
  {
    hide KernelRuns.KernInv, MessageQueueLaws.MailInv, ResourceLaws.RegInv, Next;
    WaitReaps(s.k, 0, 0);
    t := Next(s, WAIT);
    KernelParts(s, KernelRuns.WaitCall(0, 0));
  }

  lemma ResourceForgotten(s: System) returns (t: System)
    requires SysInv(s) && Lists(s.k.p, 0, [], [], []) && |s.k.p.freePcbs| > 0 && s.k.p.freePcbs[0] == 1
    requires s.k.p.freePtrs > 0 && OwnsResource(s.reg)
    ensures Leads(s, SPAWN, t) && ResourceOrphans.Orphan(t.reg, 0, 0)
  {
    hide KernelRuns.KernInv, MessageQueueLaws.MailInv, ResourceLaws.RegInv, Next;
    SpawnAgain(s.k);
    t := Next(s, SPAWN);
    KernelParts(s, KernelRuns.SpawnCall(0, 0));
  }

  lemma NothingFrees(t: System, r: Block, x: Block)
    requires AbandonedResource(t, r, x)
    ensures forall calls, u :: Runs(t, calls, u) ==> r in u.reg.resList
  {
    hide KernelRuns.KernInv, MessageQueueLaws.MailInv, ResourceLaws.RegInv, Legal, Run, AbandonedResource;
    forall calls, u | Runs(t, calls, u)
      ensures r in u.reg.resList
    {
      AbandonedResourceForever(t, calls, r, x);
    }
  }

  lemma ZombieOwns(s: System)
    requires OwnsResource(s.reg) && Lists(s.k.p, 0, [], [], [1])
    ensures AbandonedResource(s, 0, 0)
  {
  }

  /** init starts process 1, which creates resource 5 and exits: already then the resource is lost. init waits for it,
      and so reaps a zombie that left a descriptor open. */
  lemma OwnerReaped(s: System) returns (reaping: System, t: System)
    requires SysInv(s) && Boot(s)
    ensures Runs(s, [SPAWN, PREEMPT, OPEN_RESOURCE, EXIT], reaping) && AbandonedResource(reaping, 0, 0)
    ensures Leads(reaping, WAIT, t) && ReapsOwner(reaping, WAIT) && OwnsResource(t.reg)
    ensures Lists(t.k.p, 0, [], [], []) && |t.k.p.freePcbs| > 0 && t.k.p.freePcbs[0] == 1 && t.k.p.freePtrs > 0
  {
    hide SysInv, Enabled, Next, Boot, Fresh, Lists, Two, OwnsResource, Runs, ReapsOwner;
    var s1 := Spawned(s);
    var s2 := Preempted(s1);
    var s3 := ResourceOpened(s2);
    reaping := BecameZombie(s3);
    ZombieOwns(reaping);
    t := Reaped(reaping);
    FourCalls(s, SPAWN, s1, PREEMPT, s2, OPEN_RESOURCE, s3, EXIT, reaping);
  }

  /** Then it starts another process, in the same PCB: the descriptor is in nobody's list any more. From the exit on the
      resource is there for good, whatever follows. */
  lemma ResourceOrphaned(s: System) returns (exited: System, t: System)
    requires SysInv(s) && Boot(s)
    ensures Runs(s, [SPAWN, PREEMPT, OPEN_RESOURCE, EXIT], exited)
    ensures forall calls, u :: Runs(exited, calls, u) ==> 0 in u.reg.resList
    ensures Runs(s, [SPAWN, PREEMPT, OPEN_RESOURCE, EXIT, WAIT, SPAWN], t) && ResourceOrphans.Orphan(t.reg, 0, 0)
  {
    hide SysInv, Enabled, Next, Boot, Lists, OwnsResource, Runs, ReapsOwner, ResourceOrphans.Orphan, AbandonedResource;
    var reaping, s5 := OwnerReaped(s);
    t := ResourceForgotten(s5);
    TwoCalls(reaping, WAIT, s5, SPAWN, t);
    RunsOn(s, [SPAWN, PREEMPT, OPEN_RESOURCE, EXIT], reaping, [WAIT, SPAWN], t);
    assert [SPAWN, PREEMPT, OPEN_RESOURCE, EXIT] + [WAIT, SPAWN] == [SPAWN, PREEMPT, OPEN_RESOURCE, EXIT, WAIT, SPAWN];
    exited := reaping;
    NothingFrees(exited, 0, 0);
  }

  // ---- a message queue

  /** PCB 1 owns the first descriptor, of the first message queue. */
  ghost predicate OwnsMq(mail: MessageQueues.Mail) {
    mail.descsOf[0] == [0] && mail.owned[1] == [0] && mail.descs[0].owner == 1
  }

  lemma Waited(s: System) returns (t: System)
    requires SysInv(s) && Fresh(s, 0, [1], []) && s.k.p.pcbs[1].status == Ready
    ensures Leads(s, WAIT, t) && Fresh(t, 1, [], [0]) && WaitsForChild(t.k.p.pcbs[0])
  {
    hide KernelRuns.KernInv, MessageQueueLaws.MailInv, ResourceLaws.RegInv, Next;
    hide ResourceRuns.Boot, MessageQueueRuns.Boot;
    WaitSwitches(s.k);
    t := Next(s, WAIT);
    KernelParts(s, KernelRuns.WaitCall(0, 0));
  }

  predicate WaitsForChild(pcb: Pcb) {
    pcb.status == Waiting && pcb.syscallNum == CALL_WAIT && pcb.arg0 == 0
  }

  lemma FirstMq(mail: MessageQueues.Mail)
    requires MessageQueueRuns.Boot(mail)
    ensures MessageQueues.Creates(mail, 1, 7, 1, 1) && mail.mqList == []
    ensures OwnsMq(MessageQueues.Open(mail, 1, 7, 1, 1).0)
  {
    hide MessageQueueLaws.MailInv, MessageQueues.AddQueues, MessageQueues.Open, MessageQueues.NewMq, AllOf;
    MessageQueueRuns.BootHolds(mail);
    MqFirstFree(mail);
    MqCanBeFirst(mail);
    MessageQueueOrphans.CreationKeepsDescs(mail, 1, 7, 1, 1);
    MessageQueueOpening.OpenAttaches(mail, 1, 7, 1, 1);
  }

  lemma MqFirstFree(mail: MessageQueues.Mail)
    requires MessageQueueRuns.Boot(mail)
    ensures |mail.freeMqs| > 0 && mail.freeMqs[0] == 0 && |mail.freeDescs| > 0 && mail.freeDescs[0] == 0
    ensures |mail.freeQueues| == MessageQueues.MAX_NUM_QUEUES
  {
  }

  lemma MqCanBeFirst(mail: MessageQueues.Mail)
    requires mail.mqList == [] && |mail.freeMqs| > 0 && |mail.freeDescs| > 0 && mail.owned[1] == []
    requires mail.lastFd[1] == 0 && |mail.freeQueues| == MessageQueues.MAX_NUM_QUEUES
    ensures MessageQueues.Creates(mail, 1, 7, 1, 1) && MessageQueueOpening.CanOpen(mail, 1, 7, 1, 1)
    ensures MessageQueues.ById(mail, mail.mqList, 7).None?
  {
    assert CreateSet(1) && !ExclSet(1);
  }

  lemma MqOpened(s: System) returns (t: System)
    requires SysInv(s) && Fresh(s, 1, [], [0]) && WaitsForChild(s.k.p.pcbs[0])
    ensures Leads(s, OPEN_MQ, t) && OwnsMq(t.mail)
    ensures Lists(t.k.p, 1, [], [0], []) && Two(t.k.p) && WaitsForChild(t.k.p.pcbs[0])
  {
    hide KernelRuns.KernInv, MessageQueueLaws.MailInv, ResourceLaws.RegInv, Next;
    hide ResourceRuns.Boot, MessageQueueRuns.Boot, MessageQueues.Open, MessageQueues.Creates, OwnsMq;
    FirstMq(s.mail);
    t := Next(s, OPEN_MQ);
    MqOpenAnswers(s, 7, 1, 1);
    MailParts(s, OPEN_MQ);
  }

  lemma HandedOver(s: System) returns (t: System)
    requires SysInv(s) && Lists(s.k.p, 1, [], [0], []) && Two(s.k.p) && WaitsForChild(s.k.p.pcbs[0]) && OwnsMq(s.mail)
    ensures Leads(s, EXIT, t) && OwnsMq(t.mail)
    ensures Lists(t.k.p, 0, [], [], []) && t.k.p.freePcbs == [1] + s.k.p.freePcbs && t.k.p.freePtrs > 0
  {
    hide KernelRuns.KernInv, MessageQueueLaws.MailInv, ResourceLaws.RegInv, Next, OwnsMq, HandsOver;
    KernelExample.ExitHandsOver(s.k, 5);
    t := Next(s, EXIT);
    KernelParts(s, KernelRuns.ExitCall(5));
  }

  lemma MqForgotten(s: System) returns (t: System)
    requires SysInv(s) && Lists(s.k.p, 0, [], [], []) && |s.k.p.freePcbs| > 0 && s.k.p.freePcbs[0] == 1
    requires s.k.p.freePtrs > 0 && OwnsMq(s.mail)
    ensures Leads(s, SPAWN, t) && MessageQueueOrphans.Orphan(t.mail, 0, 0)
  {
    hide KernelRuns.KernInv, MessageQueueLaws.MailInv, ResourceLaws.RegInv, Next;
    SpawnAgain(s.k);
    t := Next(s, SPAWN);
    KernelParts(s, KernelRuns.SpawnCall(0, 0));
  }

  lemma FreeOwns(s: System)
    requires OwnsMq(s.mail) && 1 in s.k.p.freePcbs
    ensures Abandoned(s, 0, 0)
  {
  }

  lemma NothingUnlinks(t: System, m: MessageQueues.MqBlock, d: Block)
    requires SysInv(t) && Abandoned(t, m, d)
    ensures !KernelUnlinks(t, m)
  {
    hide KernelRuns.KernInv, MessageQueueLaws.MailInv, ResourceLaws.RegInv, Legal, Run, Abandoned;
    forall calls, u | Runs(t, calls, u)
      ensures m in u.mail.mqList
    {
      AbandonedForever(t, calls, m, d);
    }
  }

  /** init starts process 1 and waits for it; process 1 creates message queue 7 and exits, handing over to init, so that
      nothing is left of it but this descriptor. */
  lemma MqLeftOpen(s: System) returns (exited: System)
    requires SysInv(s) && Boot(s)
    ensures SysInv(exited) && Runs(s, [SPAWN, WAIT, OPEN_MQ, EXIT], exited) && OwnsMq(exited.mail)
    ensures Lists(exited.k.p, 0, [], [], []) && |exited.k.p.freePcbs| > 0 && exited.k.p.freePcbs[0] == 1
    ensures exited.k.p.freePtrs > 0
  {
    hide SysInv, Enabled, Next, Boot, Fresh, Lists, Two, Runs, WaitsForChild, OwnsMq;
    var s1 := Spawned(s);
    var s2 := Waited(s1);
    var s3 := MqOpened(s2);
    exited := HandedOver(s3);
    FourCalls(s, SPAWN, s1, WAIT, s2, OPEN_MQ, s3, EXIT, exited);
  }

  /** From then on the kernel cannot unlink the message queue, whatever follows. */
  lemma MqLost(s: System) returns (exited: System)
    requires SysInv(s) && Boot(s)
    ensures !KernelUnlinks(exited, 0) && Abandoned(exited, 0, 0)
    ensures Runs(s, [SPAWN, WAIT, OPEN_MQ, EXIT], exited)
  {
    hide SysInv, Boot, Lists, Runs, OwnsMq, Abandoned, KernelUnlinks;
    exited := MqLeftOpen(s);
    FreeOwns(exited);
    NothingUnlinks(exited, 0, 0);
  }

  /** When init starts another process, in the same PCB, the descriptor is in nobody's list any more. */
  lemma MqOrphaned(s: System) returns (exited: System, t: System)
    requires SysInv(s) && Boot(s)
    ensures Runs(s, [SPAWN, WAIT, OPEN_MQ, EXIT], exited) && OwnsMq(exited.mail)
    ensures Leads(exited, SPAWN, t) && MessageQueueOrphans.Orphan(t.mail, 0, 0)
  {
    hide SysInv, Enabled, Next, Boot, Lists, Runs, OwnsMq, MessageQueueOrphans.Orphan;
    exited := MqLeftOpen(s);
    t := MqForgotten(exited);
  }
}
