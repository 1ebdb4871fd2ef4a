/** What holds after every run of the whole kernel, and what becomes of the descriptors of processes that exit: the
    release loop covers the resource descriptors of those whose parent waits, and no others. */
module SystemTheorems {
  import opened Bags
  import opened Timers
  import opened Processes
  import opened ProcessLaws
  import opened ProcessSteps
  import opened ProcessExits
  import opened SystemRuns
  import opened SystemParts
  import opened SystemDeaths
  import Semaphores
  import KernelRuns
  import Scheduling
  import MessageQueues
  import MessageQueueLaws
  import MessageQueueReads
  import MessageQueueRuns
  import MessageQueueDrains
  import MessageQueueOrphans
  import MessageQueueUnlinking
  import Resources
  import ResourceLaws
  import ResourceRuns
  import ResourceOrphans

  /** The laws of all three parts hold in every state the kernel can reach, whatever calls are made, in any mix. */
  lemma Reachable(s: System, calls: seq<Call>)
    requires Boot(s) && SysInv(s) && Legal(s, calls)
    ensures var t := Run(s, calls);
            KernelRuns.KernInv(t.k) && MessageQueueLaws.MailInv(t.mail) && ResourceLaws.RegInv(t.reg)
  {
    hide KernelRuns.KernInv, MessageQueueLaws.MailInv, ResourceLaws.RegInv, Boot, Legal;
    assert SysInv(Run(s, calls));
  }

  // ---- the two ways a process ends

  ghost predicate Exits(s: System, value: int) {
    SysInv(s) && Enabled(s, KernelCall(KernelRuns.ExitCall(value)))
  }

  ghost function AfterExit(s: System, value: int): System
    requires Exits(s, value)
  {
    hide SysInv, Enabled;
    Next(s, KernelCall(KernelRuns.ExitCall(value)))
  }

  ghost predicate ExitHandsOver(s: System, value: int)
    requires Exits(s, value)
  {
    HandsOver(Trap(s.k.p, CALL_EXIT, [value]))
  }

  /** An exit whose parent waits for it frees the PCB and every resource descriptor of the process: no resource lists
      one of them any more, and nobody else's is touched. */
  lemma HandOverReleases(s: System, value: int)
    requires Exits(s, value) && ExitHandsOver(s, value)
    ensures var t, r := AfterExit(s, value), s.k.p.running.p;
            t.k.p.freePcbs == [r] + s.k.p.freePcbs && ResourceRuns.Released(s.reg, t.reg, r)
  {
    hide KernelRuns.KernInv, MessageQueueLaws.MailInv, ResourceLaws.RegInv;
    KernelParts(s, KernelRuns.ExitCall(value));
    hide Next, ResourceRuns.Released;
    ResourceRuns.ReleaseRemovesOwn(s.reg, s.k.p.running.p);
  }

  /** Any other exit leaves the process's descriptors where they are, and its PCB in use, as a zombie. */
  lemma ZombieKeepsDescriptors(s: System, value: int)
    requires Exits(s, value) && !ExitHandsOver(s, value)
    ensures var t := AfterExit(s, value);
            t.reg == s.reg && t.k.p.freePcbs == s.k.p.freePcbs && t.k.p.zombies == s.k.p.zombies + [s.k.p.running.p]
  {
    hide KernelRuns.KernInv, MessageQueueLaws.MailInv, ResourceLaws.RegInv;
    KernelParts(s, KernelRuns.ExitCall(value));
    hide Next;
  }

  // ---- when descriptors get orphaned

  /** Free PCBs own no descriptors, and every descriptor in use is in the list of its process. */
  ghost predicate Tidy(s: System) {
    && (forall p :: p in s.k.p.freePcbs ==> s.reg.owned[p] == [])
    && ResourceRuns.Complete(s.reg)
  }

  /** The call reaps a zombie that left descriptors open. */
  predicate ReapsOwner(s: System, call: Call)
    requires Enabled(s, call)
  {
    call.KernelCall? && call.step.WaitCall? &&
    var p := KernelRuns.RecordCall(s.k, call.step).p;
    var cs := p.children[p.running.p];
    cs != [] && WaitReturns(p) && s.reg.owned[cs[Awaited(p, cs, p.pcbs[p.running.p].arg0)]] != []
  }

  lemma SpawnTidy(s: System, step: KernelRuns.Step)
    requires SysInv(s) && Tidy(s) && Enabled(s, KernelCall(step)) && (step.SpawnCall? || step.ForkCall?)
    ensures Tidy(Next(s, KernelCall(step)))
  {
    hide KernelRuns.KernInv, MessageQueueLaws.MailInv, ResourceLaws.RegInv, ResourceRuns.Complete;
    KernelParts(s, step);
    hide Next;
    var c := s.k.p.freePcbs[0];
    var t := Next(s, KernelCall(step));
    assert t.k.p.freePcbs == s.k.p.freePcbs[1..];
    assert t.reg == Resources.NewProcess(s.reg, c);
    ResetTidy(s.reg, c);
  }

  lemma ResetTidy(reg: Resources.Registry, c: Block)
    requires reg.owned[c] == []
    ensures Resources.NewProcess(reg, c).owned == reg.owned
    ensures ResourceRuns.Complete(reg) ==> ResourceRuns.Complete(Resources.NewProcess(reg, c))
  {
  }

  /** One more free PCB, which owns nothing any more. */
  lemma ReleasedTidy(s: System, t: System, r: Block)
    requires Tidy(s) && t.k.p.freePcbs == [r] + s.k.p.freePcbs
    requires ResourceRuns.Released(s.reg, t.reg, r) && ResourceRuns.Complete(t.reg)
    ensures Tidy(t)
  {
    hide ResourceRuns.Complete;
  }

  lemma ExitTidy(s: System, value: int)
    requires Exits(s, value) && Tidy(s)
    ensures Tidy(AfterExit(s, value))
  {
    assert s.k.p.running.Ref?;
    hide SysInv, Enabled, Exits, AfterExit, ExitHandsOver, ResourceRuns.Complete, ResourceRuns.Released;
    if ExitHandsOver(s, value) {
      HandOverReleases(s, value);
      HandOverComplete(s, value);
      ReleasedTidy(s, AfterExit(s, value), s.k.p.running.p);
    } else {
      ZombieKeepsDescriptors(s, value);
    }
  }

  lemma HandOverComplete(s: System, value: int)
    requires Exits(s, value) && ResourceRuns.Complete(s.reg) && ExitHandsOver(s, value)
    ensures ResourceRuns.Complete(AfterExit(s, value).reg)
  {
    hide KernelRuns.KernInv, MessageQueueLaws.MailInv, ResourceLaws.RegInv;
    hide ResourceRuns.Complete;
    KernelParts(s, KernelRuns.ExitCall(value));
    hide Next;
    ResourceRuns.ReleaseComplete(s.reg, s.k.p.running.p);
  }

  /** What a wait that reaps does to the free PCBs. */
  lemma WaitTidyIff(s: System, step: KernelRuns.Step)
    requires SysInv(s) && Tidy(s) && Enabled(s, KernelCall(step)) && step.WaitCall?
    ensures Tidy(Next(s, KernelCall(step))) <==> !ReapsOwner(s, KernelCall(step))
  {
    hide KernelRuns.KernInv, MessageQueueLaws.MailInv, ResourceLaws.RegInv;
    KernelParts(s, step);
    WaitFrees(s.k, step);
    hide Next, KernelRuns.Next, ResourceRuns.Complete, Awaited;
    var p, t := KernelRuns.RecordCall(s.k, step).p, Next(s, KernelCall(step));
    var cs := p.children[p.running.p];
    if cs != [] && WaitReturns(p) {
      assert t.k.p.freePcbs[0] in t.k.p.freePcbs;
    }
  }

  /** The running process is not a free PCB. */
  lemma RunningInUse(s: System)
    requires SysInv(s) && s.k.p.running.Ref?
    ensures s.k.p.running.p !in s.k.p.freePcbs
  {
    PlacesApart(s.k.p);
  }

  /** The free PCBs stay what they are, and so does what they own. */
  lemma StillTidy(s: System, t: System)
    requires Tidy(s) && t.k.p.freePcbs == s.k.p.freePcbs && ResourceRuns.Complete(t.reg)
    requires forall p :: p in s.k.p.freePcbs ==> t.reg.owned[p] == s.reg.owned[p]
    ensures Tidy(t)
  {
    hide ResourceRuns.Complete;
  }

  lemma OpenTidy(s: System, id: int, kind: int, mode: int)
    requires SysInv(s) && Tidy(s) && Enabled(s, OpenResource(id, kind, mode))
    ensures Tidy(Next(s, OpenResource(id, kind, mode)))
  {
    hide KernelRuns.KernInv, MessageQueueLaws.MailInv, ResourceLaws.RegInv;
    hide Next, ResourceRuns.Complete, Resources.Open;
    RunningInUse(s);
    ResourceLaws.PoolsInStep(s.reg);
    OpenParts(s, id, kind, mode);
    ResourceRuns.OpenComplete(s.reg, s.k.p.running.p, id, kind, mode);
    ResourceRuns.OpenElsewhere(s.reg, s.k.p.running.p, id, kind, mode);
    StillTidy(s, Next(s, OpenResource(id, kind, mode)));
  }

  lemma CloseTidy(s: System, fd: int)
    requires SysInv(s) && Tidy(s) && Enabled(s, CloseResource(fd))
    ensures Tidy(Next(s, CloseResource(fd)))
  {
    hide KernelRuns.KernInv, MessageQueueLaws.MailInv, ResourceLaws.RegInv;
    hide Next, ResourceRuns.Complete, Resources.Close;
    RunningInUse(s);
    CloseParts(s, fd);
    ResourceRuns.CloseComplete(s.reg, s.k.p.running.p, fd);
    ResourceRuns.CloseElsewhere(s.reg, s.k.p.running.p, fd);
    StillTidy(s, Next(s, CloseResource(fd)));
  }

  lemma DestroyTidy(s: System, id: int)
    requires SysInv(s) && Tidy(s) && Enabled(s, DestroyResource(id))
    ensures Tidy(Next(s, DestroyResource(id)))
  {
    hide KernelRuns.KernInv, MessageQueueLaws.MailInv, ResourceLaws.RegInv;
    hide Next, ResourceRuns.Complete, Resources.Destroy;
    DestroyParts(s, id);
    ResourceRuns.DestroyComplete(s.reg, id);
    ResourceRuns.DestroyOwned(s.reg, id);
    StillTidy(s, Next(s, DestroyResource(id)));
  }

  lemma QuietTidy(s: System, step: KernelRuns.Step)
    requires SysInv(s) && Tidy(s) && Enabled(s, KernelCall(step))
    requires !step.SpawnCall? && !step.ForkCall? && !step.ExitCall? && !step.WaitCall?
    ensures Tidy(Next(s, KernelCall(step)))
  {
    KernelParts(s, step);
    QuietStep(s.k, step);
    hide KernelRuns.KernInv, MessageQueueLaws.MailInv, ResourceLaws.RegInv;
    hide Next, KernelRuns.Next, ResourceRuns.Complete;
  }

  /** Descriptors and processes correspond after a call exactly when it does not reap a zombie that left some open:
      all other ways to start, end and use processes and resources keep the correspondence. */
  lemma TidyKeptIff(s: System, call: Call)
    requires SysInv(s) && Tidy(s) && Enabled(s, call)
    ensures Tidy(Next(s, call)) <==> !ReapsOwner(s, call)
  {
    hide SysInv, Tidy, Next;
    match call
    case KernelCall(step) =>
      if step.SpawnCall? || step.ForkCall? {
        SpawnTidy(s, step);
      } else if step.ExitCall? {
        ExitTidy(s, step.value);
      } else if step.WaitCall? {
        WaitTidyIff(s, step);
      } else {
        QuietTidy(s, step);
      }
    case OpenResource(id, kind, mode) => OpenTidy(s, id, kind, mode);
    case CloseResource(fd) => CloseTidy(s, fd);
    case DestroyResource(id) => DestroyTidy(s, id);
    case _ =>
      MailParts(s, call);
      MailTidy(s, call);
  }

  lemma MailTidy(s: System, call: Call)
    requires SysInv(s) && Tidy(s) && Enabled(s, call)
    requires Next(s, call).k.p.freePcbs == s.k.p.freePcbs && Next(s, call).reg == s.reg
    ensures Tidy(Next(s, call))
  {
    hide SysInv, Next, ResourceRuns.Complete;
  }

  ghost predicate NoOwnerReaped(s: System, calls: seq<Call>)
    requires SysInv(s) && Legal(s, calls)
    decreases |calls|
  {
    calls == [] || (!ReapsOwner(s, calls[0]) && NoOwnerReaped(Next(s, calls[0]), calls[1..]))
  }

  /** So after every run in which no such zombie is reaped, they correspond one to one: d is in the list of a process
      exactly when it is in that of the resource it names, and the two descriptor blocks point at each other. */
  lemma {:induction false} DescriptorsCorrespond(s: System, calls: seq<Call>)
    requires SysInv(s) && Tidy(s) && Legal(s, calls) && NoOwnerReaped(s, calls)
    ensures var t := Run(s, calls); Tidy(t) && ResourceRuns.Linked(t.reg) && ResourceRuns.LinkedBack(t.reg)
    decreases |calls|
  {
    hide SysInv, Tidy, Next, Enabled, ReapsOwner, ResourceRuns.Linked, ResourceRuns.LinkedBack;
    if calls == [] {
      TidyLinks(s);
    } else {
      TidyKeptIff(s, calls[0]);
      DescriptorsCorrespond(Next(s, calls[0]), calls[1..]);
    }
  }

  lemma TidyLinks(s: System)
    requires SysInv(s) && Tidy(s)
    ensures ResourceRuns.Linked(s.reg) && ResourceRuns.LinkedBack(s.reg)
  {
    hide KernelRuns.KernInv, MessageQueueLaws.MailInv, ResourceLaws.RegInv;
    ResourceRuns.InvLinks(s.reg);
  }

  lemma BootTidy(s: System)
    requires Boot(s)
    ensures SysInv(s) && Tidy(s)
  {
    BootHolds(s);
    hide SysInv;
  }

  /** From the start, and with it that no free PCB has descriptors. */
  lemma CorrespondFromTheStart(s: System, calls: seq<Call>)
    requires Boot(s) && SysInv(s) && Legal(s, calls) && NoOwnerReaped(s, calls)
    ensures var t := Run(s, calls); Tidy(t) && ResourceRuns.Linked(t.reg) && ResourceRuns.LinkedBack(t.reg)
  {
    hide Boot, SysInv, Tidy, Next, Enabled, Legal, Run, NoOwnerReaped, ResourceRuns.Linked, ResourceRuns.LinkedBack;
    BootTidy(s);
    DescriptorsCorrespond(s, calls);
  }

  // ---- message queue descriptors of processes that come and go

  /** The call gives the PCB of a process that left message queues open to a new process. */
  predicate ForgetsMail(s: System, call: Call)
    requires Enabled(s, call)
  {
    && call.KernelCall? && (call.step.SpawnCall? || call.step.ForkCall?)
    && s.mail.owned[s.k.p.freePcbs[0]] != []
  }

  /** No exit gives back a message queue descriptor, whether it hands over or not. */
  lemma ExitKeepsMail(s: System, value: int)
    requires Exits(s, value)
    ensures AfterExit(s, value).mail == s.mail
  {
    hide KernelRuns.KernInv, MessageQueueLaws.MailInv, ResourceLaws.RegInv, Next;
    KernelParts(s, KernelRuns.ExitCall(value));
  }

  /** Every message queue descriptor is still in the list of its PCB after a call exactly when the call is not such a
      spawn or fork. That its process may be gone by then is not seen here (SystemAbandoned). */
  lemma HeldKeptIff(s: System, call: Call)
    requires SysInv(s) && Enabled(s, call) && MessageQueueOrphans.Held(s.mail)
    ensures MessageQueueOrphans.Held(Next(s, call).mail) <==> !ForgetsMail(s, call)
  {
    hide KernelRuns.KernInv, MessageQueueLaws.MailInv, ResourceLaws.RegInv, Next, MessageQueueOrphans.Held;
    hide MessageQueueRuns.After, MessageQueueRuns.Permitted;
    MailStepsDo(s, call);
    var steps := MailSteps(s, call);
    if steps != [] {
      MessageQueueOrphans.HeldKeptIff(s.mail, steps[0]);
    }
  }

  // ---- theorems about the parts, for runs of the kernel

  /** A message queue with a descriptor in nobody's list is there for good, whatever the kernel is asked to do. */
  lemma OrphanedMqForever(s: System, calls: seq<Call>, m: MessageQueues.MqBlock, d: Block)
    requires SysInv(s) && Legal(s, calls) && MessageQueueOrphans.Orphan(s.mail, m, d)
    ensures MessageQueueOrphans.Orphan(Run(s, calls).mail, m, d) && m in Run(s, calls).mail.mqList
  {
    hide KernelRuns.KernInv, MessageQueueLaws.MailInv, ResourceLaws.RegInv, Legal, Run, MessageQueueOrphans.Orphan;
    hide MessageQueueRuns.Run, MessageQueueRuns.Legal;
    MailProjects(s, calls);
    MessageQueueOrphans.OrphanForever(s.mail, MailRun(s, calls), m, d);
  }

  /** And so is one with a stuck message. */
  lemma StuckForever(s: System, calls: seq<Call>, m: MessageQueues.MqBlock)
    requires SysInv(s) && Legal(s, calls) && m in s.mail.mqList && MessageQueueReads.Stuck(s.mail, m) > 0
    ensures m in Run(s, calls).mail.mqList && Run(s, calls).mail.nums[m] > 0
  {
    hide KernelRuns.KernInv, MessageQueueLaws.MailInv, ResourceLaws.RegInv, Legal, Run, MessageQueueReads.Stuck;
    hide MessageQueueRuns.Run, MessageQueueRuns.Legal;
    MailProjects(s, calls);
    MessageQueueRuns.StuckForever(s.mail, MailRun(s, calls), m);
  }

  /** Which message queues calls by PCB blocks could still unlink, in every state the kernel can reach. The blocks may
      be those of zombies, and free ones, which make no calls: what the kernel itself can do is in SystemUnlinking. */
  lemma MqUnlinkableIff(s: System, calls: seq<Call>, m: MessageQueues.MqBlock)
    requires Boot(s) && SysInv(s) && Legal(s, calls) && m in Run(s, calls).mail.mqList
    ensures var t := Run(s, calls).mail;
            MessageQueueUnlinking.CanUnlink(t, m) <==>
              && MessageQueueReads.Stuck(t, m) == 0 && MessageQueueUnlinking.NoOrphan(t, m)
              && (t.nums[m] == 0 || MessageQueueUnlinking.DescriptorLeft(t))
  {
    hide KernelRuns.KernInv, MessageQueueLaws.MailInv, ResourceLaws.RegInv, Legal, Run, MessageQueueReads.Stuck;
    hide MessageQueueRuns.Run, MessageQueueRuns.Legal, MessageQueueRuns.Boot, MessageQueueUnlinking.CanUnlink;
    hide MessageQueueUnlinking.NoOrphan, MessageQueueUnlinking.DescriptorLeft;
    MailProjects(s, calls);
    MessageQueueUnlinking.ReachableUnlinkableIff(s.mail, MailRun(s, calls), m);
  }

  predicate BigBuffers(calls: seq<Call>) {
    forall i :: 0 <= i < |calls| ==> calls[i].MqRead? ==> calls[i].bufSize >= MessageQueues.MAX_MESSAGE_LENGTH
  }

  lemma {:induction false} BigBuffersProject(s: System, calls: seq<Call>)
    requires SysInv(s) && Legal(s, calls) && BigBuffers(calls)
    ensures MessageQueueRuns.BigBuffers(MailRun(s, calls))
    decreases |calls|
  {
    hide SysInv, Next, Enabled;
    if calls != [] {
      assert forall i :: 0 <= i < |calls[1..]| ==> calls[1..][i] == calls[i + 1];
      BigBuffersProject(Next(s, calls[0]), calls[1..]);
    }
  }

  /** While every read has a buffer of MAX_MESSAGE_LENGTH, what readers got from a queue is a prefix of what was written
      to it, and the rest is still there, whatever else the kernel does. */
  lemma NothingLost(s: System, calls: seq<Call>, q: MessageQueues.QueueBlock)
    requires Boot(s) && SysInv(s) && Legal(s, calls) && BigBuffers(calls)
    ensures var t := Run(s, calls).mail;
            && MessageQueueLaws.Outcomes(t.taken[q]) <= t.written[q]
            && t.written[q][|t.taken[q]|..] == MessageQueueLaws.Contents(t.messages, t.msgsOf[q])
  {
    hide KernelRuns.KernInv, MessageQueueLaws.MailInv, ResourceLaws.RegInv, Legal, Run, BigBuffers;
    hide MessageQueueRuns.Run, MessageQueueRuns.Legal, MessageQueueRuns.BigBuffers;
    MailProjects(s, calls);
    BigBuffersProject(s, calls);
    NoneTakenAtStart(s.mail);
    MessageQueueRuns.NothingLost(s.mail, MailRun(s, calls));
  }

  lemma NoneTakenAtStart(s: MessageQueues.Mail)
    requires MessageQueueRuns.Boot(s)
    ensures MessageQueueRuns.AllDelivered(s)
  {
  }

  /** A read has room for any message, and a write names a class that reads look at. */
  predicate ProperCall(s: System, call: Call)
    requires Enabled(s, call)
  {
    && (call.MqRead? ==> call.bufSize >= MessageQueues.MAX_MESSAGE_LENGTH)
    && (call.MqWrite? ==>
          var d := MessageQueues.Lookup(s.mail, s.k.p.running.p, call.fd);
          d.Some? ==> 0 <= call.priority < s.mail.priorities[s.mail.descs[d.value].mq])
  }

  ghost predicate ProperCalls(s: System, calls: seq<Call>)
    requires SysInv(s) && Legal(s, calls)
    decreases |calls|
  {
    hide SysInv, Next, Enabled, ProperCall;
    calls == [] || (ProperCall(s, calls[0]) && ProperCalls(Next(s, calls[0]), calls[1..]))
  }

  lemma {:induction false} ProperProject(s: System, calls: seq<Call>)
    requires SysInv(s) && Legal(s, calls) && ProperCalls(s, calls)
    ensures MessageQueueDrains.AllProper(s.mail, MailRun(s, calls))
    decreases |calls|
  {
    hide SysInv, Next, Enabled, MessageQueueRuns.After, MessageQueueRuns.Permitted;
    if calls != [] {
      MailStepsDo(s, calls[0]);
      ProperProject(Next(s, calls[0]), calls[1..]);
      var steps, rest := MailSteps(s, calls[0]), MailRun(Next(s, calls[0]), calls[1..]);
      if steps == [] {
        assert steps + rest == rest;
      } else {
        assert (steps + rest)[1..] == rest;
        assert steps[1..] == [];
      }
    }
  }

  /** After any run from the start whose message queue calls are proper, no message is stuck. */
  lemma ProperUseLeavesNothingStuck(s: System, calls: seq<Call>)
    requires Boot(s) && SysInv(s) && Legal(s, calls) && ProperCalls(s, calls)
    ensures MessageQueueDrains.NoneStuck(Run(s, calls).mail)
  {
    NoneListedAtStart(s.mail);
    hide KernelRuns.KernInv, MessageQueueLaws.MailInv, ResourceLaws.RegInv, Legal, Run, MessageQueueDrains.AllProper;
    hide MessageQueueRuns.Run, MessageQueueRuns.Legal, MessageQueueDrains.NoneStuck, MessageQueueRuns.Boot, ProperCalls;
    ProperProject(s, calls);
    MailProjects(s, calls);
    MessageQueueDrains.RunUnstuck(s.mail, MailRun(s, calls));
  }

  lemma NoneListedAtStart(s: MessageQueues.Mail)
    requires MessageQueueRuns.Boot(s)
    ensures MessageQueueDrains.NoneStuck(s)
  {
  }

  /** A resource with a descriptor in nobody's list is there for good. */
  lemma OrphanedResourceForever(s: System, calls: seq<Call>, r: Block, x: Block)
    requires SysInv(s) && Legal(s, calls) && ResourceOrphans.Orphan(s.reg, r, x)
    ensures ResourceOrphans.Orphan(Run(s, calls).reg, r, x) && r in Run(s, calls).reg.resList
  {
    hide KernelRuns.KernInv, MessageQueueLaws.MailInv, ResourceLaws.RegInv, Legal, Run, ResourceOrphans.Orphan;
    hide ResourceRuns.Run, ResourceRuns.Legal;
    RegProjects(s, calls);
    ResourceOrphans.OrphanForever(s.reg, RegRun(s, calls), r, x);
  }

  /** The process in PCB p does not exit. */
  ghost predicate LivesOn(s: System, calls: seq<Call>, p: Block)
    requires SysInv(s) && Legal(s, calls)
    decreases |calls|
  {
    hide SysInv, Next, Enabled, Ends;
    calls == [] || (!Ends(s, calls[0], p) && LivesOn(Next(s, calls[0]), calls[1..], p))
  }

  /** Nor does it close fd. */
  ghost predicate KeepsOpen(s: System, calls: seq<Call>, p: Block, fd: int)
    requires SysInv(s) && Legal(s, calls)
    decreases |calls|
  {
    hide SysInv, Next, Enabled;
    calls == [] || ((s.k.p.running == Ref(p) ==> calls[0] != CloseResource(fd))
                    && KeepsOpen(Next(s, calls[0]), calls[1..], p, fd))
  }

  /** What a call is to the resources does not touch a live process that does not exit by it, unless it is its own. */
  lemma CallSpares(s: System, call: Call, p: Block, fd: int)
    requires SysInv(s) && Enabled(s, call) && !Dead(s.k.p, p) && !Ends(s, call, p)
    ensures ResourceRuns.NewProcessStep(p) !in RegSteps(s, call)
    ensures (s.k.p.running == Ref(p) ==> call != CloseResource(fd)) ==>
              forall i :: 0 <= i < |RegSteps(s, call)| ==> ResourceRuns.Spares(RegSteps(s, call)[i], p, fd)
  {
    hide KernelRuns.KernInv, MessageQueueLaws.MailInv, ResourceLaws.RegInv, HandsOver;
  }

  lemma {:induction false} RunSpares(s: System, calls: seq<Call>, p: Block, fd: int)
    requires SysInv(s) && Legal(s, calls) && !Dead(s.k.p, p) && LivesOn(s, calls, p)
    ensures ResourceRuns.NewProcessStep(p) !in RegRun(s, calls)
    ensures KeepsOpen(s, calls, p, fd) ==>
              forall i :: 0 <= i < |RegRun(s, calls)| ==> ResourceRuns.Spares(RegRun(s, calls)[i], p, fd)
    decreases |calls|
  {
    hide SysInv, Next, Enabled, Dead, Ends, Starts, RegSteps, ResourceRuns.Spares;
    if calls != [] {
      CallSpares(s, calls[0], p, fd);
      DeadIff(s, calls[0], p);
      RunSpares(Next(s, calls[0]), calls[1..], p, fd);
    }
  }

  /** A resource fd means the same until its process closes it or exits, whatever else the kernel is asked to do. */
  lemma FdKeepsMeaning(s: System, calls: seq<Call>, p: Block, fd: int)
    requires SysInv(s) && Legal(s, calls) && Resources.ByFd(s.reg, s.reg.owned[p], fd).Ref?
    requires !Dead(s.k.p, p) && LivesOn(s, calls, p) && KeepsOpen(s, calls, p, fd)
    ensures var t, d := Run(s, calls).reg, Resources.ByFd(s.reg, s.reg.owned[p], fd).p;
            Resources.ByFd(t, t.owned[p], fd) == Ref(d) && t.descs[d] == s.reg.descs[d]
  {
    hide KernelRuns.KernInv, MessageQueueLaws.MailInv, ResourceLaws.RegInv, Legal, Run, Resources.ByFd;
    hide ResourceRuns.Run, ResourceRuns.Legal, ResourceRuns.Spares, Dead, LivesOn, KeepsOpen;
    RegProjects(s, calls);
    RunSpares(s, calls, p, fd);
    ResourceRuns.FdKeepsMeaning(s.reg, RegRun(s, calls), p, fd);
  }

  /** A closed resource fd names nothing as long as the process lives. */
  lemma FdNeverReused(s: System, calls: seq<Call>, p: Block, fd: int)
    requires SysInv(s) && Legal(s, calls) && ResourceRuns.Spent(s.reg, p, fd)
    requires !Dead(s.k.p, p) && LivesOn(s, calls, p)
    ensures Resources.ByFd(Run(s, calls).reg, Run(s, calls).reg.owned[p], fd).Null?
  {
    hide KernelRuns.KernInv, MessageQueueLaws.MailInv, ResourceLaws.RegInv, Legal, Run, Resources.ByFd;
    hide ResourceRuns.Run, ResourceRuns.Legal, ResourceRuns.Spent, Dead, LivesOn;
    RegProjects(s, calls);
    RunSpares(s, calls, p, fd);
    ResourceRuns.FdNeverReused(s.reg, RegRun(s, calls), p, fd);
  }
}
