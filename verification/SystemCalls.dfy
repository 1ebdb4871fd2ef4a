/** What the caller of a message queue or resource call is told, and what such a call changes in the kernel: the call's
    part, the caller's PCB, where the call and its answer are recorded, and for a read the int its pointer is to. */
module SystemCalls {
  import opened Processes
  import opened ProcessExits
  import opened SystemRuns
  import opened SystemParts
  import Semaphores
  import SemaphoreLaws
  import KernelRuns
  import KernelCalls
  import MessageQueues
  import MessageQueueLaws
  import MessageQueueReads
  import MessageQueueRuns
  import MessageQueueOpening
  import Resources
  import ResourceLaws
  import ResourceRuns

  /** The call of this number, with this first argument, is recorded in the caller's PCB, and it returns ret; nothing
      else is different. */
  ghost predicate Told(k: Semaphores.Kern, t: Semaphores.Kern, num: int, arg0: int, ret: int)
    requires k.p.running.Ref?
  {
    var r := k.p.running.p;
    t == k.(p := k.p.(pcbs := k.p.pcbs[r := k.p.pcbs[r].(syscallNum := num, arg0 := arg0, retvalue := ret)]))
  }

  /** And so with two arguments. */
  ghost predicate ToldOfTwo(k: Semaphores.Kern, t: Semaphores.Kern, num: int, arg0: int, arg1: int, ret: int)
    requires k.p.running.Ref?
  {
    var r := k.p.running.p;
    t == k.(p := k.p.(pcbs := k.p.pcbs[r := k.p.pcbs[r].(syscallNum := num, arg0 := arg0, arg1 := arg1,
                                                         retvalue := ret)]))
  }

  /** The kernel after a call with these numbers, arguments and answer. */
  lemma Recorded(k: Semaphores.Kern, num: int, arg0: int, arg1: int, ret: int)
    requires k.p.running.Ref?
    ensures Told(k, k.(p := Answer(k.p, num, [arg0], ret)), num, arg0, ret)
    ensures ToldOfTwo(k, k.(p := Answer(k.p, num, [arg0, arg1], ret)), num, arg0, arg1, ret)
  {
  }

  lemma ReturnTold(k: Semaphores.Kern, t: Semaphores.Kern, num: int, arg0: int, arg1: int, ret: int)
    requires k.p.running.Ref? && ToldOfTwo(k, t, num, arg0, arg1, ret)
    ensures t.p.pcbs[k.p.running.p].retvalue == ret
  {
  }

  // ---- message queues

  lemma MqOpenTells(s: System, id: int, flags: int, priority: int, t: System)
    requires Leads(s, MqOpen(id, flags, priority), t)
    ensures s.k.p.running.Ref?
    ensures MessageQueues.Creates(s.mail, s.k.p.running.p, id, flags, priority) ==> s.mail.mqList == []
    ensures var p := s.k.p.running.p;
            var (mail, reply) := MessageQueues.Open(s.mail, p, id, flags, priority);
            t.mail == mail && t.reg == s.reg && ToldOfTwo(s.k, t.k, CALL_MQOPEN, id, flags, reply.ret)
  {
    hide KernelRuns.KernInv, MessageQueueLaws.MailInv, ResourceLaws.RegInv, MessageQueues.Open, Answer, ToldOfTwo;
    var (mail, reply) := MessageQueues.Open(s.mail, s.k.p.running.p, id, flags, priority);
    Recorded(s.k, CALL_MQOPEN, id, flags, reply.ret);
  }

  lemma MqWriteTells(s: System, fd: int, text: int, length: int, priority: int, t: System)
    requires Leads(s, MqWrite(fd, text, length, priority), t)
    ensures s.k.p.running.Ref?
    ensures var p := s.k.p.running.p;
            var (mail, reply) := MessageQueues.Write(s.mail, p, fd, text, length, priority);
            t.mail == mail && t.reg == s.reg && ToldOfTwo(s.k, t.k, CALL_MQWRITE, fd, text, reply.ret)
  {
    hide KernelRuns.KernInv, MessageQueueLaws.MailInv, ResourceLaws.RegInv, MessageQueues.Write, Answer, ToldOfTwo;
    var (mail, reply) := MessageQueues.Write(s.mail, s.k.p.running.p, fd, text, length, priority);
    Recorded(s.k, CALL_MQWRITE, fd, text, reply.ret);
  }

  /** A read that gets a message also stores the message's class where the caller's pointer says. */
  lemma MqReadTells(s: System, fd: int, buf: int, bufSize: int, rank: int, t: System)
    requires Leads(s, MqRead(fd, buf, bufSize, rank), t)
    ensures s.k.p.running.Ref?
    ensures var p := s.k.p.running.p;
            var (mail, reply) := MessageQueues.Read(s.mail, p, fd, bufSize);
            && t.mail == mail && t.reg == s.reg
            && t.k.p.memory == (if reply.Received? then s.k.p.memory[rank := reply.rank] else s.k.p.memory)
            && ToldOfTwo(s.k, t.k.(p := t.k.p.(memory := s.k.p.memory)), CALL_MQREAD, fd, buf, reply.ret)
  {
    hide KernelRuns.KernInv, MessageQueueLaws.MailInv, ResourceLaws.RegInv, MessageQueues.Read, ToldOfTwo;
    var (mail, reply) := MessageQueues.Read(s.mail, s.k.p.running.p, fd, bufSize);
    Recorded(s.k, CALL_MQREAD, fd, buf, reply.ret);
  }

  lemma MqCloseTells(s: System, fd: int, t: System)
    requires Leads(s, MqClose(fd), t)
    ensures s.k.p.running.Ref?
    ensures var p := s.k.p.running.p;
            var (mail, reply) := MessageQueues.Close(s.mail, p, fd);
            t.mail == mail && t.reg == s.reg && Told(s.k, t.k, CALL_MQCLOSE, fd, reply.ret)
  {
    hide KernelRuns.KernInv, MessageQueueLaws.MailInv, ResourceLaws.RegInv, MessageQueues.Close, Answer, Told;
    var (mail, reply) := MessageQueues.Close(s.mail, s.k.p.running.p, fd);
    Recorded(s.k, CALL_MQCLOSE, fd, 0, reply.ret);
  }

  lemma MqUnlinkTells(s: System, id: int, t: System)
    requires Leads(s, MqUnlink(id), t)
    ensures s.k.p.running.Ref?
    ensures var (mail, reply) := MessageQueues.Unlink(s.mail, id);
            t.mail == mail && t.reg == s.reg && Told(s.k, t.k, CALL_MQUNLINK, id, reply.ret)
  {
    hide KernelRuns.KernInv, MessageQueueLaws.MailInv, ResourceLaws.RegInv, MessageQueues.Unlink, Answer, Told;
    var (mail, reply) := MessageQueues.Unlink(s.mail, id);
    Recorded(s.k, CALL_MQUNLINK, id, 0, reply.ret);
  }

  // ---- resources

  lemma OpenResourceTells(s: System, id: int, kind: int, mode: int, t: System)
    requires Leads(s, OpenResource(id, kind, mode), t)
    ensures s.k.p.running.Ref? && Resources.CanCreate(s.reg, id, mode) && s.reg.freeDescs == s.reg.freePtrs
    ensures var p := s.k.p.running.p;
            var (reg, ret) := Resources.Open(s.reg, p, id, kind, mode);
            t.reg == reg && t.mail == s.mail && ToldOfTwo(s.k, t.k, CALL_OPEN_RESOURCE, id, kind, ret)
  {
    hide KernelRuns.KernInv, MessageQueueLaws.MailInv, ResourceLaws.RegInv, Resources.Open, Answer, ToldOfTwo;
    ResourceLaws.PoolsInStep(s.reg);
    var (reg, ret) := Resources.Open(s.reg, s.k.p.running.p, id, kind, mode);
    Recorded(s.k, CALL_OPEN_RESOURCE, id, kind, ret);
  }

  lemma CloseResourceTells(s: System, fd: int, t: System)
    requires Leads(s, CloseResource(fd), t)
    ensures s.k.p.running.Ref?
    ensures var p := s.k.p.running.p;
            var (reg, ret) := Resources.Close(s.reg, p, fd);
            t.reg == reg && t.mail == s.mail && Told(s.k, t.k, CALL_CLOSE_RESOURCE, fd, ret)
  {
    hide KernelRuns.KernInv, MessageQueueLaws.MailInv, ResourceLaws.RegInv, Resources.Close, Answer, Told;
    var (reg, ret) := Resources.Close(s.reg, s.k.p.running.p, fd);
    Recorded(s.k, CALL_CLOSE_RESOURCE, fd, 0, ret);
  }

  lemma DestroyResourceTells(s: System, id: int, t: System)
    requires Leads(s, DestroyResource(id), t)
    ensures s.k.p.running.Ref?
    ensures var (reg, ret) := Resources.Destroy(s.reg, id);
            t.reg == reg && t.mail == s.mail && Told(s.k, t.k, CALL_DESTROY_RESOURCE, id, ret)
  {
    hide KernelRuns.KernInv, MessageQueueLaws.MailInv, ResourceLaws.RegInv, Resources.Destroy, Answer, Told;
    var (reg, ret) := Resources.Destroy(s.reg, id);
    Recorded(s.k, CALL_DESTROY_RESOURCE, id, 0, ret);
  }

  // ---- what the process gets

  /** After an open that can, the caller has the fd in its PCB: the number of descriptors it had; else the error. */
  lemma MqOpenReturns(s: System, id: int, flags: int, priority: int, t: System)
    requires Leads(s, MqOpen(id, flags, priority), t)
    ensures var p := s.k.p.running.p;
            t.k.p.pcbs[p].retvalue ==
            if MessageQueueOpening.CanOpen(s.mail, p, id, flags, priority) then |s.mail.owned[p]|
            else MessageQueues.EMQOPEN
  {
    MqOpenTells(s, id, flags, priority, t);
    hide KernelRuns.KernInv, MessageQueueLaws.MailInv, ResourceLaws.RegInv, Next, MessageQueues.Open;
    hide MessageQueueOpening.CanOpen, MessageQueues.Creates, ToldOfTwo;
    MessageQueueOpening.OpenSucceedsIff(s.mail, s.k.p.running.p, id, flags, priority);
    var reply := MessageQueues.Open(s.mail, s.k.p.running.p, id, flags, priority).1;
    ReturnTold(s.k, t.k, CALL_MQOPEN, id, flags, reply.ret);
  }

  /** And for resources: its last_fd, or an error. */
  lemma OpenResourceReturns(s: System, id: int, kind: int, mode: int, t: System)
    requires Leads(s, OpenResource(id, kind, mode), t)
    ensures var p := s.k.p.running.p;
            if ResourceRuns.CanOpen(s.reg, id, kind, mode) then t.k.p.pcbs[p].retvalue == s.reg.lastFd[p]
            else t.k.p.pcbs[p].retvalue < 0
  {
    OpenResourceTells(s, id, kind, mode, t);
    hide KernelRuns.KernInv, MessageQueueLaws.MailInv, ResourceLaws.RegInv, Next, Resources.Open;
    hide ResourceRuns.CanOpen, ToldOfTwo;
    ResourceRuns.OpenSucceedsIff(s.reg, s.k.p.running.p, id, kind, mode);
    ReturnTold(s.k, t.k, CALL_OPEN_RESOURCE, id, kind, Resources.Open(s.reg, s.k.p.running.p, id, kind, mode).1);
  }

  /** A read whose buffer holds the oldest message of the most urgent class that has one returns that message's length,
      and the class is stored at the caller's address; memory is otherwise as it was. */
  lemma MqReadReturns(s: System, fd: int, buf: int, bufSize: int, rank: int, t: System, k: int)
    requires Leads(s, MqRead(fd, buf, bufSize, rank), t)
    requires MessageQueues.Lookup(s.mail, s.k.p.running.p, fd).Some?
    requires MessageQueueReads.FirstReadable(s.mail, MessageQueueRuns.Named(s.mail, s.k.p.running.p, fd), k)
    ensures var p := s.k.p.running.p;
            var oldest := MessageQueueReads.InClass(s.mail, MessageQueueRuns.Named(s.mail, p, fd), k)[0];
            bufSize >= oldest.length ==>
              t.k.p.pcbs[p].retvalue == oldest.length && t.k.p.memory == s.k.p.memory[rank := k]
  {
    MqReadTells(s, fd, buf, bufSize, rank, t);
    hide KernelRuns.KernInv, MessageQueueLaws.MailInv, ResourceLaws.RegInv, Next, MessageQueues.Read;
    hide MessageQueueReads.InClass, MessageQueues.Lookup;
    MessageQueueReads.ReadIsFaithfulIff(s.mail, s.k.p.running.p, fd, bufSize, k);
  }

  // ---- the calls of the process side

  /** A process that starts has no message queue and no resource descriptors, whatever its PCB had. */
  lemma SpawnTells(s: System, step: KernelRuns.Step, t: System)
    requires Leads(s, KernelCall(step), t) && (step.SpawnCall? || step.ForkCall?)
    ensures s.k.p.freePcbs != [] && KernelRuns.Enabled(s.k, step) && t.k == KernelRuns.Next(s.k, step)
    ensures var c := s.k.p.freePcbs[0];
            && t.mail == s.mail.(owned := s.mail.owned[c := []], lastFd := s.mail.lastFd[c := 0])
            && t.reg == s.reg.(owned := s.reg.owned[c := []], lastFd := s.reg.lastFd[c := 0])
  {
    hide KernelRuns.KernInv, MessageQueueLaws.MailInv, ResourceLaws.RegInv, KernelRuns.Next;
    KernelParts(s, step);
  }

  /** A process that exits while its parent waits for it closes its resource descriptors, first opened first; any other
      exit leaves them, and no exit touches message queues. */
  lemma ExitTells(s: System, value: int, t: System)
    requires Leads(s, KernelCall(KernelRuns.ExitCall(value)), t)
    ensures s.k.p.running.Ref? && s.k.p.pcbs[s.k.p.running.p].parent.Ref?
    ensures KernelRuns.Enabled(s.k, KernelRuns.ExitCall(value))
    ensures t.k == KernelRuns.Next(s.k, KernelRuns.ExitCall(value))
    ensures var p := s.k.p.running.p;
            && t.mail == s.mail
            && t.reg == if KernelCalls.ParentWaits(s.k.p) then ResourceRuns.CloseInTurn(s.reg, p, |s.reg.owned[p]|)
                        else s.reg
  {
    hide KernelRuns.KernInv, MessageQueueLaws.MailInv, ResourceLaws.RegInv, KernelRuns.Next, HandsOver;
    KernelParts(s, KernelRuns.ExitCall(value));
    HandsOverToWaiting(s.k, value);
    ResourceRuns.ReleaseIsClosing(s.reg, s.k.p.running.p);
  }

  lemma HandsOverToWaiting(k: Semaphores.Kern, value: int)
    requires KernelRuns.KernInv(k) && KernelRuns.Enabled(k, KernelRuns.ExitCall(value))
    ensures HandsOver(KernelRuns.RecordCall(k, KernelRuns.ExitCall(value)).p) <==> KernelCalls.ParentWaits(k.p)
  {
    hide KernelRuns.KernInv, Reparent, Die;
    KernelRuns.RecordCallKeepsInv(k, KernelRuns.ExitCall(value));
    Awaited(KernelRuns.RecordCall(k, KernelRuns.ExitCall(value)));
  }

  lemma Awaited(k: Semaphores.Kern)
    requires KernelRuns.KernInv(k) && CanExit(k.p) && k.p.children[k.p.running.p] == []
    ensures k.p.pcbs[k.p.running.p].parent.p != k.p.running.p
    ensures HandsOver(k.p) <==> KernelCalls.ParentWaits(k.p)
  {
    DyingFacts(k.p, SemaphoreLaws.WaiterBag(k.x));
  }

  /** Every other call of the process side leaves message queues and resources alone. */
  lemma OtherStepsTell(s: System, step: KernelRuns.Step, t: System)
    requires Leads(s, KernelCall(step), t) && !step.SpawnCall? && !step.ForkCall? && !step.ExitCall?
    ensures KernelRuns.Enabled(s.k, step) && t.k == KernelRuns.Next(s.k, step)
    ensures t.mail == s.mail && t.reg == s.reg
  {
    hide KernelRuns.KernInv, MessageQueueLaws.MailInv, ResourceLaws.RegInv, KernelRuns.Next;
    KernelParts(s, step);
  }
}
