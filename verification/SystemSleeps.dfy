/** The clock, and how long a sleep lasts, whatever calls of the whole kernel are made meanwhile. */
module SystemSleeps {
  import opened Timers
  import opened Processes
  import opened SystemRuns
  import opened SystemParts
  import KernelRuns
  import SleepRuns
  import MessageQueueLaws
  import ResourceLaws

  predicate IsInterrupt(call: Call) {
    call.KernelCall? && call.step.Interrupt?
  }

  /** How many of the calls are timer interrupts. */
  function Interrupts(calls: seq<Call>): nat {
    if calls == [] then 0 else (if IsInterrupt(calls[0]) then 1 else 0) + Interrupts(calls[1..])
  }

  /** Only interrupts advance the clock, and a timer that is for later than now stays. */
  lemma CallTimers(s: System, call: Call)
    requires SysInv(s) && Enabled(s, call)
    ensures var t := Next(s, call);
            && t.k.p.time == s.k.p.time + (if IsInterrupt(call) then 1 else 0)
            && forall x :: x in s.k.p.timers && t.k.p.time < x.time ==> x in t.k.p.timers
  {
    hide KernelRuns.KernInv, MessageQueueLaws.MailInv, ResourceLaws.RegInv, Next, KernelRuns.Next, KernelRuns.Enabled;
    if call.KernelCall? {
      KernelParts(s, call.step);
      SleepRuns.StepTimers(s.k, call.step);
    } else {
      OnlyRegisters(s, call);
    }
  }

  /** After any run of the kernel the time is that at its start and one for each timer interrupt in it. */
  lemma {:induction false} TimeCounts(s: System, calls: seq<Call>)
    requires SysInv(s) && Legal(s, calls)
    ensures Run(s, calls).k.p.time == s.k.p.time + Interrupts(calls)
    decreases |calls|
  {
    hide SysInv, Next, Enabled;
    if calls != [] {
      CallTimers(s, calls[0]);
      TimeCounts(Next(s, calls[0]), calls[1..]);
    }
  }

  lemma {:induction false} LaterTimersStay(s: System, calls: seq<Call>, x: Timer)
    requires SysInv(s) && Legal(s, calls) && x in s.k.p.timers && s.k.p.time + Interrupts(calls) < x.time
    ensures x in Run(s, calls).k.p.timers
    decreases |calls|
  {
    hide SysInv, Next, Enabled;
    if calls != [] {
      CallTimers(s, calls[0]);
      LaterTimersStay(Next(s, calls[0]), calls[1..], x);
    }
  }

  /** After sleep(cycles), whatever is called, the caller waits while fewer than `cycles` interrupts have come, and the
      one that completes them makes it ready, or lets it run. */
  lemma SleepLasts(s: System, cycles: int, t: System, calls: seq<Call>, u: System)
    requires Leads(s, KernelCall(KernelRuns.SleepCall(cycles)), t) && Runs(t, calls, u) && Interrupts(calls) < cycles
    ensures s.k.p.running.Ref? && s.k.p.running.p in u.k.p.waiting
    ensures forall v :: Leads(u, KernelCall(KernelRuns.Interrupt), v) && Interrupts(calls) == cycles - 1 ==>
              var r := s.k.p.running.p;
              r !in v.k.p.waiting && (r in v.k.p.ready || v.k.p.running == Ref(r))
  {
    var x := Asleep(s, cycles, t);
    hide SysInv, Next, Enabled, Leads;
    LaterTimersStay(t, calls, x);
    TimeCounts(t, calls);
    Waits(u, x);
    forall v | Leads(u, KernelCall(KernelRuns.Interrupt), v) && Interrupts(calls) == cycles - 1
      ensures x.pcb !in v.k.p.waiting && (x.pcb in v.k.p.ready || v.k.p.running == Ref(x.pcb))
    {
      Wakes(u, x, v);
    }
  }

  lemma Asleep(s: System, cycles: int, t: System) returns (x: Timer)
    requires Leads(s, KernelCall(KernelRuns.SleepCall(cycles)), t)
    ensures s.k.p.running == Ref(x.pcb) && x in t.k.p.timers && x.time == t.k.p.time + cycles
  {
    hide KernelRuns.KernInv, MessageQueueLaws.MailInv, ResourceLaws.RegInv, Next, KernelRuns.Next;
    KernelParts(s, KernelRuns.SleepCall(cycles));
    x := SleepRuns.Asleep(s.k, cycles);
  }

  lemma Waits(s: System, x: Timer)
    requires SysInv(s) && x in s.k.p.timers
    ensures x.pcb in s.k.p.waiting
  {
    hide KernelRuns.KernInv, MessageQueueLaws.MailInv, ResourceLaws.RegInv;
    SleepRuns.TimerWaits(s.k, x);
  }

  lemma Wakes(s: System, x: Timer, t: System)
    requires Leads(s, KernelCall(KernelRuns.Interrupt), t) && x in s.k.p.timers && x.time <= s.k.p.time + 1
    ensures x.pcb !in t.k.p.waiting && (x.pcb in t.k.p.ready || t.k.p.running == Ref(x.pcb))
  {
    hide KernelRuns.KernInv, MessageQueueLaws.MailInv, ResourceLaws.RegInv, Next, KernelRuns.Next;
    KernelParts(s, KernelRuns.Interrupt);
    SleepRuns.InterruptWakes(s.k, x);
  }
}
