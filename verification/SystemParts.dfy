/** What a call of the whole kernel is to each of its parts, and so that theorems about runs of the parts hold for runs
    of the whole. */
module SystemParts {
  import opened Bags
  import opened Timers
  import opened Processes
  import opened SystemRuns
  import KernelRuns
  import MessageQueues
  import MessageQueueLaws
  import MessageQueueRuns
  import Resources
  import ResourceLaws
  import ResourceRuns

  // ---- the parts of a step

  lemma KernelParts(s: System, step: KernelRuns.Step)
    requires SysInv(s) && Enabled(s, KernelCall(step))
    ensures var t := Next(s, KernelCall(step));
            t.k == KernelRuns.Next(s.k, step) && t.mail == Others(s, step).0 && t.reg == Others(s, step).1
  {
    hide KernelRuns.KernInv, MessageQueueLaws.MailInv, ResourceLaws.RegInv;
  }

  lemma OpenParts(s: System, id: int, kind: int, mode: int)
    requires SysInv(s) && Enabled(s, OpenResource(id, kind, mode))
    ensures var t := Next(s, OpenResource(id, kind, mode));
            t.k.p.freePcbs == s.k.p.freePcbs && t.mail == s.mail
            && t.reg == ResourceCall(s, OpenResource(id, kind, mode)).0
  {
    hide KernelRuns.KernInv, MessageQueueLaws.MailInv, ResourceLaws.RegInv, ResourceCall;
  }

  /** What the caller's PCB records of an open, and nothing else. */
  lemma OpenAnswers(s: System, id: int, kind: int, mode: int)
    requires SysInv(s) && Enabled(s, OpenResource(id, kind, mode))
    ensures var (_, ret) := ResourceCall(s, OpenResource(id, kind, mode));
            Next(s, OpenResource(id, kind, mode)).k == s.k.(p := Answer(s.k.p, CALL_OPEN_RESOURCE, [id, kind], ret))
  {
    hide KernelRuns.KernInv, MessageQueueLaws.MailInv, ResourceLaws.RegInv, ResourceCall;
  }

  lemma MqOpenAnswers(s: System, id: int, flags: int, priority: int)
    requires SysInv(s) && Enabled(s, MqOpen(id, flags, priority))
    ensures var (_, reply) := MailCall(s, MqOpen(id, flags, priority));
            Next(s, MqOpen(id, flags, priority)).k == s.k.(p := Answer(s.k.p, CALL_MQOPEN, [id, flags], reply.ret))
  {
    hide KernelRuns.KernInv, MessageQueueLaws.MailInv, ResourceLaws.RegInv, MailCall;
  }

  lemma CloseParts(s: System, fd: int)
    requires SysInv(s) && Enabled(s, CloseResource(fd))
    ensures var t := Next(s, CloseResource(fd));
            t.k.p.freePcbs == s.k.p.freePcbs && t.mail == s.mail
            && t.reg == Resources.Close(s.reg, s.k.p.running.p, fd).0
  {
    hide KernelRuns.KernInv, MessageQueueLaws.MailInv, ResourceLaws.RegInv;
    hide Resources.Close;
  }

  lemma DestroyParts(s: System, id: int)
    requires SysInv(s) && Enabled(s, DestroyResource(id))
    ensures var t := Next(s, DestroyResource(id));
            t.k.p.freePcbs == s.k.p.freePcbs && t.mail == s.mail && t.reg == Resources.Destroy(s.reg, id).0
  {
    hide KernelRuns.KernInv, MessageQueueLaws.MailInv, ResourceLaws.RegInv;
    hide Resources.Destroy;
  }

  lemma MailParts(s: System, call: Call)
    requires SysInv(s) && Enabled(s, call)
    requires call.MqOpen? || call.MqWrite? || call.MqRead? || call.MqClose? || call.MqUnlink?
    ensures var t := Next(s, call);
            t.k.p.freePcbs == s.k.p.freePcbs && t.mail == MailCall(s, call).0 && t.reg == s.reg
  {
    hide KernelRuns.KernInv, MessageQueueLaws.MailInv, ResourceLaws.RegInv;
    hide MailCall;
  }

  /** The calls of the other parts write to the caller's PCB and to memory, and leave all processes where they are. */
  lemma OnlyRegisters(s: System, call: Call)
    requires SysInv(s) && Enabled(s, call) && !call.KernelCall?
    ensures var t := Next(s, call);
            t.k == s.k.(p := s.k.p.(pcbs := t.k.p.pcbs, memory := t.k.p.memory))
  {
    hide KernelRuns.KernInv, MessageQueueLaws.MailInv, ResourceLaws.RegInv, MailCall, ResourceCall;
  }

  // ---- what a call is to the message queues and to the resources

  /** A message queue call is itself; starting a process resets its PCB; anything else, exit included, is nothing. */
  function MailSteps(s: System, call: Call): seq<MessageQueueRuns.MailStep>
    requires Enabled(s, call)
  {
    var p := s.k.p.running.p;
    match call
    case KernelCall(step) =>
      if step.SpawnCall? || step.ForkCall? then [MessageQueueRuns.NewProcessStep(s.k.p.freePcbs[0])] else []
    case MqOpen(id, flags, priority) => [MessageQueueRuns.OpenStep(p, id, flags, priority)]
    case MqWrite(fd, text, length, priority) => [MessageQueueRuns.WriteStep(p, fd, text, length, priority)]
    case MqRead(fd, _, bufSize, _) => [MessageQueueRuns.ReadStep(p, fd, bufSize)]
    case MqClose(fd) => [MessageQueueRuns.CloseStep(p, fd)]
    case MqUnlink(id) => [MessageQueueRuns.UnlinkStep(id)]
    case _ => []
  }

  /** A resource call is itself; starting a process resets its PCB; an exit that hands over releases. */
  function RegSteps(s: System, call: Call): seq<ResourceRuns.RegStep>
    requires Enabled(s, call)
  {
    var p := s.k.p.running.p;
    match call
    case KernelCall(step) =>
      if step.SpawnCall? || step.ForkCall? then [ResourceRuns.NewProcessStep(s.k.p.freePcbs[0])]
      else if step.ExitCall? && HandsOver(KernelRuns.RecordCall(s.k, step).p) then [ResourceRuns.ReleaseStep(p)]
      else []
    case OpenResource(id, kind, mode) => [ResourceRuns.OpenStep(p, id, kind, mode)]
    case CloseResource(fd) => [ResourceRuns.CloseStep(p, fd)]
    case DestroyResource(id) => [ResourceRuns.DestroyStep(id)]
    case _ => []
  }

  lemma MailStepsDo(s: System, call: Call)
    requires SysInv(s) && Enabled(s, call)
    ensures MessageQueueRuns.Legal(s.mail, MailSteps(s, call))
    ensures MessageQueueRuns.Run(s.mail, MailSteps(s, call)) == Next(s, call).mail
  {
    hide KernelRuns.KernInv, MessageQueueLaws.MailInv, ResourceLaws.RegInv, Next;
    hide Resources.Open, Resources.Close, Resources.Destroy, Resources.ReleaseAll, KernelRuns.Next, HandsOver;
    hide MessageQueues.Open, MessageQueues.Write, MessageQueues.Read, MessageQueues.Close, MessageQueues.Unlink;
    match call
    case KernelCall(step) => KernelParts(s, step);
    case OpenResource(id, kind, mode) => OpenParts(s, id, kind, mode);
    case CloseResource(fd) => CloseParts(s, fd);
    case DestroyResource(id) => DestroyParts(s, id);
    case _ => MailParts(s, call);
  }

  lemma RegStepsDo(s: System, call: Call)
    requires SysInv(s) && Enabled(s, call)
    ensures ResourceRuns.Legal(s.reg, RegSteps(s, call))
    ensures ResourceRuns.Run(s.reg, RegSteps(s, call)) == Next(s, call).reg
  {
    hide KernelRuns.KernInv, MessageQueueLaws.MailInv, ResourceLaws.RegInv, Next;
    hide Resources.Open, Resources.Close, Resources.Destroy, Resources.ReleaseAll, KernelRuns.Next, HandsOver;
    match call
    case KernelCall(step) => KernelParts(s, step);
    case OpenResource(id, kind, mode) => OpenParts(s, id, kind, mode);
    case CloseResource(fd) => CloseParts(s, fd);
    case DestroyResource(id) => DestroyParts(s, id);
    case _ => MailParts(s, call);
  }

  // ---- whole runs

  /** The run of the message queues that a run of the kernel is. */
  ghost function MailRun(s: System, calls: seq<Call>): (r: seq<MessageQueueRuns.MailStep>)
    requires SysInv(s) && Legal(s, calls)
    ensures MessageQueueRuns.Legal(s.mail, r)
    decreases |calls|
  {
    hide SysInv, Next, Enabled, MailSteps, MessageQueueRuns.Run;
    if calls == [] then []
    else
      var rest := MailRun(Next(s, calls[0]), calls[1..]);
      MailStepsDo(s, calls[0]);
      MessageQueueRuns.RunConcat(s.mail, MailSteps(s, calls[0]), rest);
      MailSteps(s, calls[0]) + rest
  }

  /** The run of the resources that a run of the kernel is. */
  ghost function RegRun(s: System, calls: seq<Call>): (r: seq<ResourceRuns.RegStep>)
    requires SysInv(s) && Legal(s, calls)
    ensures ResourceRuns.Legal(s.reg, r)
    decreases |calls|
  {
    hide Next, Enabled, RegSteps, KernelRuns.KernInv, MessageQueueLaws.MailInv, ResourceLaws.RegInv, ResourceRuns.Run;
    if calls == [] then []
    else
      var rest := RegRun(Next(s, calls[0]), calls[1..]);
      RegStepsDo(s, calls[0]);
      ResourceRuns.RunConcat(s.reg, RegSteps(s, calls[0]), rest);
      RegSteps(s, calls[0]) + rest
  }

  /** The message queues, after any run of the kernel, are what a legal run of their own calls makes of them. */
  lemma {:induction false} MailProjects(s: System, calls: seq<Call>)
    requires SysInv(s) && Legal(s, calls)
    ensures MessageQueueRuns.Run(s.mail, MailRun(s, calls)) == Run(s, calls).mail
    decreases |calls|
  {
    hide SysInv, Next, Enabled, MailSteps;
    if calls != [] {
      MailStepsDo(s, calls[0]);
      MailProjects(Next(s, calls[0]), calls[1..]);
      MessageQueueRuns.RunConcat(s.mail, MailSteps(s, calls[0]), MailRun(Next(s, calls[0]), calls[1..]));
    }
  }

  /** And so are the resources. */
  lemma {:induction false} RegProjects(s: System, calls: seq<Call>)
    requires SysInv(s) && Legal(s, calls)
    ensures ResourceRuns.Run(s.reg, RegRun(s, calls)) == Run(s, calls).reg
    decreases |calls|
  {
    hide Next, Enabled, RegSteps, KernelRuns.KernInv, MessageQueueLaws.MailInv, ResourceLaws.RegInv;
    if calls != [] {
      RegStepsDo(s, calls[0]);
      RegProjects(Next(s, calls[0]), calls[1..]);
      ResourceRuns.RunConcat(s.reg, RegSteps(s, calls[0]), RegRun(Next(s, calls[0]), calls[1..]));
    }
  }
}
