/** The whole kernel: processes and semaphores, message queues and resources as one state machine over every system
    call but shutdown. What the parts do together is the descriptors of processes that come and go. */
module SystemRuns {
  import opened Bags
  import opened Timers
  import opened Processes
  import opened ProcessLaws
  import opened ProcessSteps
  import opened ProcessExits
  import Semaphores
  import SemaphoreLaws
  import KernelRuns
  import MessageQueues
  import MessageQueueLaws
  import MessageQueueSteps
  import MessageQueueRuns
  import Resources
  import ResourceLaws
  import ResourceRuns

  datatype System = System(k: Semaphores.Kern, mail: MessageQueues.Mail, reg: Resources.Registry)

  /** A call of the process side or a timer interrupt, or one of the others; pointers are integers. */
  datatype Call =
    | KernelCall(step: KernelRuns.Step)
    | MqOpen(id: int, flags: int, priority: int)
    | MqWrite(fd: int, text: int, length: int, priority: int)
    | MqRead(fd: int, buf: int, bufSize: int, rank: int)
    | MqClose(fd: int)
    | MqUnlink(id: int)
    | OpenResource(id: int, kind: int, mode: int)
    | CloseResource(fd: int)
    | DestroyResource(id: int)

  ghost predicate SysInv(s: System) {
    KernelRuns.KernInv(s.k) && MessageQueueLaws.MailInv(s.mail) && ResourceLaws.RegInv(s.reg)
  }

  /** What a call needs: what its handler dereferences without a check, and what the theorems about runs of the
      parts require. */
  predicate Enabled(s: System, call: Call) {
    && s.k.p.running.Ref?
    && match call
       case KernelCall(step) => KernelRuns.Enabled(s.k, step)
       case MqOpen(id, flags, priority) =>
         MessageQueues.Creates(s.mail, s.k.p.running.p, id, flags, priority) ==> s.mail.mqList == []
       case OpenResource(id, _, mode) => Resources.CanCreate(s.reg, id, mode)
       case _ => true
  }

  /** The call is recorded in the caller's PCB, and so is what it returns. */
  function Answer(p: Proc, num: int, args: seq<int>, ret: int): Proc
    requires p.running.Ref?
  {
    Return(Trap(p, num, args), ret)
  }

  lemma AnswerKeeps(s: System, num: int, args: seq<int>, ret: int)
    requires SysInv(s) && s.k.p.running.Ref?
    ensures KernelRuns.KernInv(s.k.(p := Answer(s.k.p, num, args, ret)))
  {
    hide Inv;
    TrapKeepsInv(s.k.p, SemaphoreLaws.WaiterBag(s.k.x), num, args);
    ReturnKeepsInv(Trap(s.k.p, num, args), SemaphoreLaws.WaiterBag(s.k.x), ret);
  }

  /** The class of the message read goes where the caller's pointer says. */
  lemma StoreKeeps(k: Semaphores.Kern, memory: map<int, int>)
    requires KernelRuns.KernInv(k)
    ensures KernelRuns.KernInv(k.(p := k.p.(memory := memory)))
  {
    RegistersDoNotMatter(k.p, k.p.(memory := memory), SemaphoreLaws.WaiterBag(k.x));
  }

  // ---- the parts on one step

  /** Does the dying process hand over to its parent? */
  predicate HandsOver(p: Proc)
    requires CanExit(p)
  {
    AwaitedBy(Die(Reparent(p)), p.running.p, p.pcbs[p.running.p].parent.p)
  }

  /** PCB_alloc resets what the PCB holds about message queues and resources; exit releases the resource
      descriptors when it hands over, and only then. */
  function Others(s: System, step: KernelRuns.Step): (MessageQueues.Mail, Resources.Registry)
    requires s.k.p.running.Ref? && KernelRuns.Enabled(s.k, step)
  {
    match step
    case SpawnCall(_, _) => Reset(s)
    case ForkCall => Reset(s)
    case ExitCall(_) =>
      (s.mail,
       if HandsOver(KernelRuns.RecordCall(s.k, step).p) then Resources.ReleaseAll(s.reg, s.k.p.running.p) else s.reg)
    case _ => (s.mail, s.reg)
  }

  function Reset(s: System): (MessageQueues.Mail, Resources.Registry)
    requires CanSpawn(s.k.p)
  {
    (MessageQueues.NewProcess(s.mail, s.k.p.freePcbs[0]), Resources.NewProcess(s.reg, s.k.p.freePcbs[0]))
  }

  ghost function AfterKernelCall(s: System, step: KernelRuns.Step): (t: System)
    requires SysInv(s) && s.k.p.running.Ref? && KernelRuns.Enabled(s.k, step)
    ensures SysInv(t)
  {
    hide KernelRuns.KernInv, MessageQueueLaws.MailInv, ResourceLaws.RegInv;
    KernelRuns.NextKeepsInv(s.k, step);
    OthersKeep(s, step);
    System(KernelRuns.Next(s.k, step), Others(s, step).0, Others(s, step).1)
  }

  lemma OthersKeep(s: System, step: KernelRuns.Step)
    requires SysInv(s) && s.k.p.running.Ref? && KernelRuns.Enabled(s.k, step)
    ensures MessageQueueLaws.MailInv(Others(s, step).0) && ResourceLaws.RegInv(Others(s, step).1)
  {
    hide KernelRuns.KernInv, MessageQueueLaws.MailInv, ResourceLaws.RegInv;
    match step
    case SpawnCall(_, _) => ResetKeeps(s);
    case ForkCall => ResetKeeps(s);
    case ExitCall(_) => ResourceLaws.ReleaseAllKeeps(s.reg, s.k.p.running.p);
    case _ =>
  }

  lemma ResetKeeps(s: System)
    requires SysInv(s) && CanSpawn(s.k.p)
    ensures MessageQueueLaws.MailInv(Reset(s).0) && ResourceLaws.RegInv(Reset(s).1)
  {
    hide MessageQueueLaws.MailInv, ResourceLaws.RegInv;
    MessageQueueSteps.NewProcessKeeps(s.mail, s.k.p.freePcbs[0]);
    ResourceLaws.NewProcessKeeps(s.reg, s.k.p.freePcbs[0]);
  }

  /** A message queue call by the running process, with what it answers. */
  function MailCall(s: System, call: Call): (r: (MessageQueues.Mail, MessageQueues.Reply))
    requires Enabled(s, call)
    requires call.MqOpen? || call.MqWrite? || call.MqRead? || call.MqClose? || call.MqUnlink?
  {
    var p := s.k.p.running.p;
    match call
    case MqOpen(id, flags, priority) => MessageQueues.Open(s.mail, p, id, flags, priority)
    case MqWrite(fd, text, length, priority) => MessageQueues.Write(s.mail, p, fd, text, length, priority)
    case MqRead(fd, _, bufSize, _) => MessageQueues.Read(s.mail, p, fd, bufSize)
    case MqClose(fd) => MessageQueues.Close(s.mail, p, fd)
    case MqUnlink(id) => MessageQueues.Unlink(s.mail, id)
  }

  lemma MailCallKeeps(s: System, call: Call)
    requires SysInv(s) && Enabled(s, call)
    requires call.MqOpen? || call.MqWrite? || call.MqRead? || call.MqClose? || call.MqUnlink?
    ensures MessageQueueLaws.MailInv(MailCall(s, call).0)
  {
    hide KernelRuns.KernInv, MessageQueueLaws.MailInv, ResourceLaws.RegInv;
    var p := s.k.p.running.p;
    match call
    case MqOpen(id, flags, priority) => MessageQueueSteps.OpenKeeps(s.mail, p, id, flags, priority);
    case MqWrite(fd, text, length, priority) => MessageQueueSteps.WriteKeeps(s.mail, p, fd, text, length, priority);
    case MqRead(fd, _, bufSize, _) => MessageQueueSteps.ReadKeeps(s.mail, p, fd, bufSize);
    case MqClose(fd) => MessageQueueSteps.CloseKeeps(s.mail, p, fd);
    case MqUnlink(id) => MessageQueueSteps.UnlinkKeeps(s.mail, id);
  }

  /** The number of the call, and its first two arguments. */
  function Number(call: Call): int {
    match call
    case KernelCall(_) => 0
    case MqOpen(_, _, _) => CALL_MQOPEN
    case MqWrite(_, _, _, _) => CALL_MQWRITE
    case MqRead(_, _, _, _) => CALL_MQREAD
    case MqClose(_) => CALL_MQCLOSE
    case MqUnlink(_) => CALL_MQUNLINK
    case OpenResource(_, _, _) => CALL_OPEN_RESOURCE
    case CloseResource(_) => CALL_CLOSE_RESOURCE
    case DestroyResource(_) => CALL_DESTROY_RESOURCE
  }

  function Args(call: Call): seq<int> {
    match call
    case KernelCall(_) => []
    case MqOpen(id, flags, _) => [id, flags]
    case MqWrite(fd, text, _, _) => [fd, text]
    case MqRead(fd, buf, _, _) => [fd, buf]
    case MqClose(fd) => [fd]
    case MqUnlink(id) => [id]
    case OpenResource(id, kind, _) => [id, kind]
    case CloseResource(fd) => [fd]
    case DestroyResource(id) => [id]
  }

  ghost function AfterMailCall(s: System, call: Call): (t: System)
    requires SysInv(s) && Enabled(s, call)
    requires call.MqOpen? || call.MqWrite? || call.MqRead? || call.MqClose? || call.MqUnlink?
    ensures SysInv(t)
  {
    hide KernelRuns.KernInv, MessageQueueLaws.MailInv, ResourceLaws.RegInv;
    var (mail, reply) := MailCall(s, call);
    var k := s.k.(p := Answer(s.k.p, Number(call), Args(call), reply.ret));
    MailCallKeeps(s, call);
    AnswerKeeps(s, Number(call), Args(call), reply.ret);
    if call.MqRead? && reply.Received? then
      StoreKeeps(k, k.p.memory[call.rank := reply.rank]);
      System(k.(p := k.p.(memory := k.p.memory[call.rank := reply.rank])), mail, s.reg)
    else System(k, mail, s.reg)
  }

  ghost function AfterResourceCall(s: System, call: Call): (t: System)
    requires SysInv(s) && Enabled(s, call)
    requires call.OpenResource? || call.CloseResource? || call.DestroyResource?
    ensures SysInv(t)
  {
    hide KernelRuns.KernInv, MessageQueueLaws.MailInv, ResourceLaws.RegInv;
    var (reg, ret) := ResourceCall(s, call);
    AnswerKeeps(s, Number(call), Args(call), ret);
    System(s.k.(p := Answer(s.k.p, Number(call), Args(call), ret)), s.mail, reg)
  }

  ghost function ResourceCall(s: System, call: Call): (r: (Resources.Registry, int))
    requires SysInv(s) && Enabled(s, call)
    requires call.OpenResource? || call.CloseResource? || call.DestroyResource?
    ensures ResourceLaws.RegInv(r.0)
  {
    hide KernelRuns.KernInv, MessageQueueLaws.MailInv, ResourceLaws.RegInv;
    ResourceLaws.PoolsInStep(s.reg);
    var p := s.k.p.running.p;
    match call
    case OpenResource(id, kind, mode) =>
      ResourceLaws.OpenKeeps(s.reg, p, id, kind, mode);
      Resources.Open(s.reg, p, id, kind, mode)
    case CloseResource(fd) =>
      ResourceLaws.CloseKeeps(s.reg, p, fd);
      Resources.Close(s.reg, p, fd)
    case DestroyResource(id) =>
      ResourceLaws.DestroyKeeps(s.reg, id);
      Resources.Destroy(s.reg, id)
  }

  // ---- any call, any run

  ghost function Next(s: System, call: Call): (t: System)
    requires SysInv(s) && Enabled(s, call)
    ensures SysInv(t)
  {
    hide KernelRuns.KernInv, MessageQueueLaws.MailInv, ResourceLaws.RegInv;
    match call
    case KernelCall(step) => AfterKernelCall(s, step)
    case OpenResource(_, _, _) => AfterResourceCall(s, call)
    case CloseResource(_) => AfterResourceCall(s, call)
    case DestroyResource(_) => AfterResourceCall(s, call)
    case _ => AfterMailCall(s, call)
  }

  ghost predicate Legal(s: System, calls: seq<Call>)
    requires SysInv(s)
    decreases |calls|
  {
    hide SysInv, Next, Enabled;
    calls == [] || (Enabled(s, calls[0]) && Legal(Next(s, calls[0]), calls[1..]))
  }

  ghost function Run(s: System, calls: seq<Call>): (t: System)
    requires SysInv(s) && Legal(s, calls)
    ensures SysInv(t)
    decreases |calls|
  {
    hide SysInv, Next, Enabled;
    if calls == [] then s else Run(Next(s, calls[0]), calls[1..])
  }

  /** The call is possible in s and leads to t. */
  ghost predicate Leads(s: System, call: Call, t: System) {
    SysInv(s) && Enabled(s, call) && Next(s, call) == t && SysInv(t)
  }

  /** And so for a run. */
  ghost predicate Runs(s: System, calls: seq<Call>, t: System) {
    SysInv(s) && Legal(s, calls) && Run(s, calls) == t
  }

  lemma FirstCall(s: System, call: Call, t: System, rest: seq<Call>, u: System)
    requires Leads(s, call, t) && Runs(t, rest, u)
    ensures Runs(s, [call] + rest, u)
  {
    hide SysInv, Enabled, Next;
    assert ([call] + rest)[1..] == rest;
  }

  lemma {:induction false} RunsOn(s: System, a: seq<Call>, t: System, b: seq<Call>, u: System)
    requires Runs(s, a, t) && Runs(t, b, u)
    ensures Runs(s, a + b, u)
    decreases |a|
  {
    hide SysInv, Enabled, Next;
    if a == [] {
      assert a + b == b;
    } else {
      RunsOn(Next(s, a[0]), a[1..], t, b, u);
      assert (a + b)[1..] == a[1..] + b;
    }
  }

  lemma OneCall(s: System, call: Call, t: System)
    requires Leads(s, call, t)
    ensures Runs(s, [call], t)
  {
    hide SysInv, Enabled, Next;
    assert Runs(t, [], t);
    FirstCall(s, call, t, [], t);
    assert [call] + [] == [call];
  }

  /** disastrOS_start */
  ghost predicate Boot(s: System) {
    KernelRuns.Boot(s.k) && MessageQueueRuns.Boot(s.mail) && ResourceRuns.Boot(s.reg)
  }

  lemma BootHolds(s: System)
    requires Boot(s)
    ensures SysInv(s)
  {
    hide KernelRuns.Boot;
    hide MessageQueueRuns.Boot;
    hide ResourceRuns.Boot;
    KernelRuns.BootHolds(s.k);
    MessageQueueRuns.BootHolds(s.mail);
    ResourceRuns.BootHolds(s.reg);
  }
}
