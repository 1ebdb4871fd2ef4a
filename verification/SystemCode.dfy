/** The kernel with its message queues and resources: every system call but shutdown as its handlers do it, proved to
    make of the whole state exactly what SystemRuns says. */
module SystemCode {
  import opened Bags
  import opened Timers
  import opened Processes
  import opened ProcessLaws
  import opened ProcessSteps
  import opened SystemRuns
  import Semaphores
  import SemaphoreLaws
  import KernelRuns
  import KernelCode
  import MessageQueues
  import MessageQueueLaws
  import Resources
  import ResourceLaws

  lemma TrapKeeps(k: Semaphores.Kern, num: int, args: seq<int>)
    requires KernelRuns.KernInv(k) && k.p.running.Ref?
    ensures KernelRuns.KernInv(k.(p := Trap(k.p, num, args)))
  {
    hide Inv;
    TrapKeepsInv(k.p, SemaphoreLaws.WaiterBag(k.x), num, args);
  }

  class Machine {
    const kernel: KernelCode.Kernel

    ghost function State(): System
      reads this, kernel, kernel.room, kernel.table
    {
      kernel.Whole()
    }

    constructor (kernel: KernelCode.Kernel)
      ensures this.kernel == kernel
    {
      this.kernel := kernel;
    }

    /** disastrOS_syscall, for the calls of message queues. */
    method MailEntry(call: Call)
      requires SysInv(State()) && Enabled(State(), call)
      requires call.MqOpen? || call.MqWrite? || call.MqRead? || call.MqClose? || call.MqUnlink?
      modifies kernel`os, kernel.room`mail
      ensures State() == AfterMailCall(old(State()), call)
    {
      hide KernelRuns.KernInv, MessageQueueLaws.MailInv, ResourceLaws.RegInv;
      kernel.SyscallEntry(Number(call), Args(call));
      var reply := HandleMail(call);
      kernel.SetReturn(reply.ret);
      if call.MqRead? && reply.Received? {
        kernel.StoreAt(call.rank, reply.rank);
      }
    }

    method HandleMail(call: Call) returns (reply: MessageQueues.Reply)
      requires MessageQueueLaws.MailInv(kernel.room.mail) && Enabled(State(), call)
      requires call.MqOpen? || call.MqWrite? || call.MqRead? || call.MqClose? || call.MqUnlink?
      modifies kernel.room`mail
      ensures (kernel.room.mail, reply) == MailCall(old(State()), call)
    {
      hide MessageQueueLaws.MailInv;
      var p := kernel.os.running.p;
      match call {
        case MqOpen(id, flags, priority) => reply := kernel.room.InternalMqOpen(p, id, flags, priority);
        case MqWrite(fd, text, length, priority) => reply := kernel.room.InternalMqWrite(p, fd, text, length, priority);
        case MqRead(fd, _, bufSize, _) => reply := kernel.room.InternalMqRead(p, fd, bufSize);
        case MqClose(fd) => reply := kernel.room.InternalMqClose(p, fd);
        case MqUnlink(id) => reply := kernel.room.InternalMqUnlink(id);
      }
    }

    /** disastrOS_syscall, for the calls of resources. */
    method ResourceEntry(call: Call)
      requires SysInv(State()) && Enabled(State(), call)
      requires call.OpenResource? || call.CloseResource? || call.DestroyResource?
      modifies kernel`os, kernel.table`reg
      ensures State() == AfterResourceCall(old(State()), call)
    {
      hide KernelRuns.KernInv, MessageQueueLaws.MailInv, ResourceLaws.RegInv;
      TrapKeeps(kernel.State(), Number(call), Args(call));
      kernel.SyscallEntry(Number(call), Args(call));
      var ret := HandleResource(call);
      kernel.SetReturn(ret);
    }

    method HandleResource(call: Call) returns (ret: int)
      requires SysInv(State()) && Enabled(State(), call)
      requires call.OpenResource? || call.CloseResource? || call.DestroyResource?
      modifies kernel.table`reg
      ensures (kernel.table.reg, ret) == ResourceCall(old(State()), call)
    {
      hide KernelRuns.KernInv, MessageQueueLaws.MailInv, ResourceLaws.RegInv;
      var p := kernel.os.running.p;
      match call {
        case OpenResource(id, kind, mode) => ret := kernel.table.InternalOpenResource(p, id, kind, mode);
        case CloseResource(fd) => ret := kernel.table.InternalCloseResource(p, fd);
        case DestroyResource(id) => ret := kernel.table.InternalDestroyResource(id);
      }
    }

    /** One call, or a timer interrupt. */
    method Execute(call: Call)
      requires SysInv(State()) && Enabled(State(), call)
      modifies kernel`os, kernel`sems, kernel.room`mail, kernel.table`reg
      ensures State() == Next(old(State()), call) && SysInv(State())
    {
      hide KernelRuns.KernInv, MessageQueueLaws.MailInv, ResourceLaws.RegInv;
      match call {
        case KernelCall(step) => kernel.Execute(step);
        case OpenResource(_, _, _) => ResourceEntry(call);
        case CloseResource(_) => ResourceEntry(call);
        case DestroyResource(_) => ResourceEntry(call);
        case _ => MailEntry(call);
      }
    }

    /** Whole runs. */
    method ExecuteAll(calls: seq<Call>)
      requires SysInv(State()) && Legal(State(), calls)
      modifies kernel`os, kernel`sems, kernel.room`mail, kernel.table`reg
      ensures State() == Run(old(State()), calls) && SysInv(State())
    {
      hide SysInv, Enabled, Next;
      var i := 0;
      while i < |calls|
        invariant 0 <= i <= |calls| && SysInv(State()) && Legal(State(), calls[i..])
        invariant Run(old(State()), calls) == Run(State(), calls[i..])
      {
        assert calls[i..][1..] == calls[i + 1..];
        Execute(calls[i]);
        i := i + 1;
      }
    }
  }
}
