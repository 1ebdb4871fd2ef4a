/** Descriptors that no process will ever give back: they are lost at the exit of their process. */
module SystemAbandoned {
  import opened Bags
  import opened Timers
  import opened Processes
  import opened SystemRuns
  import opened SystemParts
  import opened SystemDeaths
  import KernelRuns
  import MessageQueues
  import MessageQueueLaws
  import MessageQueueRuns
  import MessageQueueReads
  import MessageQueueOrphans
  import MessageQueueUnlinking
  import Resources
  import ResourceLaws
  import ResourceRuns
  import ResourceOrphans

  // ---- message queues

  /** No process that could make a call has descriptor d of message queue m: it is in no list of a PCB, or in that of a
      zombie or of a free PCB. */
  ghost predicate Abandoned(s: System, m: MessageQueues.MqBlock, d: Block) {
    d in s.mail.descsOf[m]
    && (d !in s.mail.owned[s.mail.descs[d].owner] || Dead(s.k.p, s.mail.descs[d].owner))
  }

  /** A descriptor is abandoned after a call exactly when it was before, or its process exits by this call, in whatever
      way. Nothing takes an abandoned descriptor back. */
  lemma AbandonedIff(s: System, call: Call, m: MessageQueues.MqBlock, d: Block)
    requires SysInv(s) && Enabled(s, call)
    ensures Abandoned(Next(s, call), m, d) <==>
              Abandoned(s, m, d)
              || (d in s.mail.descsOf[m] && d in s.mail.owned[s.k.p.running.p] && Ends(s, call, s.k.p.running.p))
  {
    hide KernelRuns.KernInv, MessageQueueLaws.MailInv, ResourceLaws.RegInv, Next, Dead;
    hide MessageQueueRuns.After, MessageQueueRuns.Permitted;
    var t := Next(s, call);
    DeadIff(s, call, s.mail.descs[d].owner);
    DeadIff(s, call, t.mail.descs[d].owner);
    CallerAlive(s);
    OwnedByOwner(s.mail);
    MailStepsDo(s, call);
    if MailSteps(s, call) != [] {
      var step := MailSteps(s, call)[0];
      FreeIsDead(s, call);
      MessageQueueOrphans.OrphanIff(s.mail, step, m, d);
      MessageQueueOrphans.StepDescs(s.mail, step, m, d);
    }
  }

  lemma OwnedByOwner(mail: MessageQueues.Mail)
    requires MessageQueueLaws.MailInv(mail)
    ensures forall p: Block, d :: d in mail.owned[p] ==> mail.descs[d].owner == p
  {
  }

  /** A process is started in a PCB that was dead. */
  lemma FreeIsDead(s: System, call: Call)
    requires Enabled(s, call)
    ensures forall b: Block :: Starts(s, call, b) ==> Dead(s.k.p, b)
  {
  }

  /** So it stays, and its message queue is never unlinked, whatever the kernel is asked to do: the message queue is
      lost when the process that has it open exits. */
  lemma {:induction false} AbandonedForever(s: System, calls: seq<Call>, m: MessageQueues.MqBlock, d: Block)
    requires SysInv(s) && Legal(s, calls) && Abandoned(s, m, d)
    ensures Abandoned(Run(s, calls), m, d) && m in Run(s, calls).mail.mqList
    decreases |calls|
  {
    hide SysInv, Next, Enabled, Abandoned, Ends;
    if calls == [] {
      AbandonedListed(s, m, d);
    } else {
      AbandonedIff(s, calls[0], m, d);
      AbandonedForever(Next(s, calls[0]), calls[1..], m, d);
    }
  }

  lemma AbandonedListed(s: System, m: MessageQueues.MqBlock, d: Block)
    requires SysInv(s) && Abandoned(s, m, d)
    ensures m in s.mail.mqList
  {
    hide KernelRuns.KernInv, ResourceLaws.RegInv;
  }

  // ---- resources

  /** No process that could make a call has descriptor x of resource r. */
  ghost predicate AbandonedResource(s: System, r: Block, x: Block) {
    x in s.reg.ptrsOf[r]
    && (x !in s.reg.owned[s.reg.descs[x].owner] || Dead(s.k.p, s.reg.descs[x].owner))
  }

  /** The call is an exit of the running process that does not hand over to its parent. */
  predicate EndsUnreleased(s: System, call: Call)
    requires Enabled(s, call)
  {
    call.KernelCall? && call.step.ExitCall? && !HandsOver(KernelRuns.RecordCall(s.k, call.step).p)
  }

  /** A resource descriptor is abandoned exactly by an exit of its process that does not hand over, and for good. */
  lemma AbandonedResourceIff(s: System, call: Call, r: Block, x: Block)
    requires SysInv(s) && Enabled(s, call)
    ensures AbandonedResource(Next(s, call), r, x) <==>
              AbandonedResource(s, r, x)
              || (x in s.reg.ptrsOf[r] && x in s.reg.owned[s.k.p.running.p] && EndsUnreleased(s, call))
  {
    hide KernelRuns.KernInv, MessageQueueLaws.MailInv, ResourceLaws.RegInv, Next, Dead, HandsOver;
    hide ResourceRuns.After, ResourceRuns.Permitted;
    var t := Next(s, call);
    DeadIff(s, call, s.reg.descs[x].owner);
    DeadIff(s, call, t.reg.descs[x].owner);
    CallerAlive(s);
    ResourceOrphans.OwnedByOwner(s.reg);
    RegStepsDo(s, call);
    if RegSteps(s, call) != [] {
      var step := RegSteps(s, call)[0];
      FreeIsDead(s, call);
      ResourceOrphans.OrphanIff(s.reg, step, r, x);
      ResourceOrphans.StepDescs(s.reg, step, r, x);
    }
  }

  lemma {:induction false} AbandonedResourceForever(s: System, calls: seq<Call>, r: Block, x: Block)
    requires SysInv(s) && Legal(s, calls) && AbandonedResource(s, r, x)
    ensures AbandonedResource(Run(s, calls), r, x) && r in Run(s, calls).reg.resList
    decreases |calls|
  {
    hide SysInv, Next, Enabled, AbandonedResource, EndsUnreleased;
    if calls == [] {
      AbandonedResourceListed(s, r, x);
    } else {
      AbandonedResourceIff(s, calls[0], r, x);
      AbandonedResourceForever(Next(s, calls[0]), calls[1..], r, x);
    }
  }

  lemma AbandonedResourceListed(s: System, r: Block, x: Block)
    requires SysInv(s) && AbandonedResource(s, r, x)
    ensures r in s.reg.resList
  {
    hide KernelRuns.KernInv, MessageQueueLaws.MailInv;
  }
}
