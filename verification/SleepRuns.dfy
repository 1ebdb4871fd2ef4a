/** The clock, and how long a sleep lasts, in runs of the kernel. */
module SleepRuns {
  import opened Timers
  import opened Processes
  import opened ProcessSteps
  import opened Scheduling
  import opened Semaphores
  import opened SemaphoreLaws
  import opened KernelRuns
  import opened KernelCalls

  /** How many of the steps are timer interrupts. */
  function Interrupts(steps: seq<Step>): nat {
    if steps == [] then 0 else (if steps[0].Interrupt? then 1 else 0) + Interrupts(steps[1..])
  }

  /** The semaphore calls touch neither the clock nor the timers. */
  lemma SemaphoresKeepTimers(k: Kern, step: Step)
    requires Enabled(k, step)
    requires step.SemOpenCall? || step.SemCloseCall? || step.SemWaitCall? || step.SemPostCall?
    ensures Next(k, step).p.time == k.p.time && Next(k, step).p.timers == k.p.timers
  {
    hide Lookup, ById, Create, Detach, Destroy, Release, Dequeue, Enqueue, Acquire;
  }

  /** Only interrupts advance the clock, and a timer is taken down exactly by an interrupt or a preempt that finds it
      due. */
  lemma StepTimers(k: Kern, step: Step)
    requires KernInv(k) && Enabled(k, step)
    ensures var t := Next(k, step);
            && t.p.time == k.p.time + (if step.Interrupt? then 1 else 0)
            && forall x :: x in k.p.timers ==>
                 (x in t.p.timers <==> !((step.Interrupt? || step.PreemptCall?) && x.time <= t.p.time))
  {
    hide KernInv, Next;
    assert k.p.running.Ref?;
    match step
    case SpawnCall(_, _) => SpawnEffect(k, step);
    case ForkCall => SpawnEffect(k, step);
    case SleepCall(cycles) =>
      SleepEffect(k, cycles);
      hide ForInstant;
      TimersStay(k.p.timers, Next(k, step).p.timers);
    case WaitCall(pid, result) => WaitKeepsTimers(k, pid, result);
    case ExitCall(value) => ExitEffect(k, value);
    case PreemptCall =>
      PreemptEffect(k);
      DueAndLater(k.p.timers, k.p.time);
    case Interrupt =>
      InterruptEffect(k);
      DueAndLater(k.p.timers, k.p.time + 1);
    case _ => SemaphoresKeepTimers(k, step);
  }

  lemma WaitKeepsTimers(k: Kern, pid: int, result: int)
    requires Enabled(k, WaitCall(pid, result))
    ensures Next(k, WaitCall(pid, result)).p.time == k.p.time
    ensures Next(k, WaitCall(pid, result)).p.timers == k.p.timers
  {
    hide Awaited;
  }

  lemma TimersStay(ts: seq<Timer>, us: seq<Timer>)
    requires forall time :: ForInstant(ts, time) <= ForInstant(us, time)
    ensures forall x :: x in ts ==> x in us
  {
    forall x | x in ts
      ensures x in us
    {
      InInstant(ts, x);
      InInstant(us, x);
      assert ForInstant(ts, x.time) <= ForInstant(us, x.time);
    }
  }

  lemma {:induction false} InInstant(ts: seq<Timer>, x: Timer)
    ensures x in ForInstant(ts, x.time) <==> x in ts
  {
    if ts != [] {
      InInstant(ts[1..], x);
    }
  }

  /** After any run the time is that at its start and one for each timer interrupt in it. */
  lemma {:induction false} TimeCounts(k: Kern, steps: seq<Step>)
    requires KernInv(k) && Legal(k, steps)
    ensures Run(k, steps).p.time == k.p.time + Interrupts(steps)
    decreases |steps|
  {
    hide KernInv, Next, Enabled;
    if steps != [] {
      StepTimers(k, steps[0]);
      NextKeepsInv(k, steps[0]);
      TimeCounts(Next(k, steps[0]), steps[1..]);
    }
  }

  /** A timer for later than the end of the run is still there. */
  lemma {:induction false} LaterTimersStay(k: Kern, steps: seq<Step>, x: Timer)
    requires KernInv(k) && Legal(k, steps) && x in k.p.timers && k.p.time + Interrupts(steps) < x.time
    ensures x in Run(k, steps).p.timers
    decreases |steps|
  {
    hide KernInv, Next, Enabled;
    if steps != [] {
      StepTimers(k, steps[0]);
      NextKeepsInv(k, steps[0]);
      LaterTimersStay(Next(k, steps[0]), steps[1..], x);
    }
  }

  /** Whoever has a timer is on the waiting list. */
  lemma TimerWaits(k: Kern, x: Timer)
    requires KernInv(k) && x in k.p.timers
    ensures x.pcb in k.p.waiting
  {
    var i :| 0 <= i < |k.p.timers| && k.p.timers[i] == x;
    assert Pcbs(k.p.timers)[i] == x.pcb;
    if x.pcb !in k.p.waiting {
      NotWaiting(k.p, WaiterBag(k.x), x.pcb);
    }
  }

  lemma {:induction false} InWithout(l: seq<Block>, out: seq<Block>, p: Block)
    ensures p in Without(l, out) <==> p in l && p !in out
  {
    if l != [] {
      InWithout(l[1..], out, p);
    }
  }

  /** A call of schedule wakes those whose timers are due: they are ready, or one of them runs. */
  lemma ScheduleWakes(s: Proc, t: Proc, x: Timer)
    requires s.running.Ref? && Scheduled(s, t) && x in s.timers && x.time <= s.time
    ensures x.pcb !in t.waiting && (x.pcb in t.ready || t.running == Ref(x.pcb))
  {
    hide Due, Later, Without;
    var due := Due(s.timers, s.time);
    DueAndLater(s.timers, s.time);
    InWithout(s.waiting, Pcbs(due), x.pcb);
    var i :| 0 <= i < |due| && due[i] == x;
    assert Pcbs(due)[i] == x.pcb;
    var queue := Pcbs(due) + s.ready;
    assert queue[i] == x.pcb;
    if i > 0 {
      assert queue[1..][i - 1] == x.pcb;
    }
  }

  lemma InterruptWakes(k: Kern, x: Timer)
    requires KernInv(k) && Enabled(k, Interrupt) && x in k.p.timers && x.time <= k.p.time + 1
    ensures var t := Next(k, Interrupt).p; x.pcb !in t.waiting && (x.pcb in t.ready || t.running == Ref(x.pcb))
  {
    hide KernInv, Next;
    InterruptEffect(k);
    ScheduleWakes(k.p.(time := k.p.time + 1), Next(k, Interrupt).p, x);
  }

  /** After sleep(cycles), whatever the others call, the caller waits while fewer than `cycles` interrupts have come,
      and the one that completes them makes it ready, or lets it run. */
  lemma SleepLasts(k: Kern, cycles: int, steps: seq<Step>)
    requires KernInv(k) && k.p.running.Ref? && Enabled(k, SleepCall(cycles))
    requires Legal(Next(k, SleepCall(cycles)), steps) && Interrupts(steps) < cycles
    ensures var t := Run(Next(k, SleepCall(cycles)), steps); var r := k.p.running.p;
            && r in t.p.waiting
            && (Enabled(t, Interrupt) && Interrupts(steps) == cycles - 1 ==>
                  var u := Next(t, Interrupt);
                  r !in u.p.waiting && (r in u.p.ready || u.p.running == Ref(r)))
  {
    hide KernInv, Next;
    var x := Asleep(k, cycles);
    var s := Next(k, SleepCall(cycles));
    var t := Run(s, steps);
    LaterTimersStay(s, steps, x);
    RunKeepsInv(s, steps);
    TimerWaits(t, x);
    if Enabled(t, Interrupt) && Interrupts(steps) == cycles - 1 {
      TimeCounts(s, steps);
      InterruptWakes(t, x);
    }
  }

  /** The caller's timer. */
  lemma Asleep(k: Kern, cycles: int) returns (x: Timer)
    requires KernInv(k) && k.p.running.Ref? && Enabled(k, SleepCall(cycles))
    ensures var t := Next(k, SleepCall(cycles));
            && KernInv(t) && x in t.p.timers && x.pcb == k.p.running.p && x.time == t.p.time + cycles
  {
    hide KernInv, Next;
    SleepEffect(k, cycles);
    StepTimers(k, SleepCall(cycles));
    NextKeepsInv(k, SleepCall(cycles));
    x := Timer(k.p.freeTimers[0], k.p.time + cycles, k.p.running.p);
    var t := Next(k, SleepCall(cycles));
    assert x in ForInstant(t.p.timers, x.time);
    InInstant(t.p.timers, x);
  }

  // ---- runs in which nothing is called but preempt

  predicate Quiet(steps: seq<Step>) {
    forall i :: 0 <= i < |steps| ==> steps[i].Interrupt? || steps[i].PreemptCall?
  }

  lemma QuietStep(k: Kern, step: Step, p: Block)
    requires KernInv(k) && Enabled(k, step) && (step.Interrupt? || step.PreemptCall?)
    ensures p in Next(k, step).p.waiting ==> p in k.p.waiting
    ensures forall x :: x in k.p.timers && x.time <= Next(k, step).p.time && x.pcb == p ==>
              p !in Next(k, step).p.waiting
  {
    hide KernInv, Next;
    StepTimers(k, step);
    var s := k.p;
    if step.Interrupt? {
      InterruptEffect(k);
      s := k.p.(time := k.p.time + 1);
    } else {
      PreemptEffect(k);
      s := k.p.(pcbs := k.p.pcbs[k.p.running.p := k.p.pcbs[k.p.running.p].(syscallNum := CALL_PREEMPT)]);
    }
    InWithout(s.waiting, Pcbs(Due(s.timers, s.time)), p);
    forall x | x in k.p.timers && x.time <= Next(k, step).p.time && x.pcb == p
      ensures p !in Next(k, step).p.waiting
    {
      ScheduleWakes(s, Next(k, step).p, x);
    }
  }

  lemma {:induction false} QuietKeepsAwake(k: Kern, steps: seq<Step>, p: Block)
    requires KernInv(k) && Legal(k, steps) && Quiet(steps) && p !in k.p.waiting
    ensures p !in Run(k, steps).p.waiting
    decreases |steps|
  {
    hide KernInv, Next, Enabled;
    if steps != [] {
      QuietStep(k, steps[0], p);
      NextKeepsInv(k, steps[0]);
      assert forall i :: 0 <= i < |steps[1..]| ==> steps[1..][i] == steps[i + 1];
      QuietKeepsAwake(Next(k, steps[0]), steps[1..], p);
    }
  }

  lemma {:induction false} QuietTimer(k: Kern, steps: seq<Step>, x: Timer)
    requires KernInv(k) && Legal(k, steps) && Quiet(steps) && x in k.p.timers
    ensures x.pcb in Run(k, steps).p.waiting <==> steps == [] || k.p.time + Interrupts(steps) < x.time
    decreases |steps|
  {
    hide KernInv, Next, Enabled;
    if steps == [] {
      TimerWaits(k, x);
    } else {
      var t := Next(k, steps[0]);
      StepTimers(k, steps[0]);
      QuietStep(k, steps[0], x.pcb);
      NextKeepsInv(k, steps[0]);
      assert forall i :: 0 <= i < |steps[1..]| ==> steps[1..][i] == steps[i + 1];
      if x.time > t.p.time {
        QuietTimer(t, steps[1..], x);
      } else {
        QuietKeepsAwake(t, steps[1..], x.pcb);
      }
    }
  }

  /** After sleep(cycles), in a run of interrupts and preempts, the caller is on the waiting list exactly until the
      cycles-th interrupt; a sleep of zero cycles or fewer lasts until the next interrupt or preempt. */
  lemma SleepLastsExactly(k: Kern, cycles: int, steps: seq<Step>)
    requires KernInv(k) && k.p.running.Ref? && Enabled(k, SleepCall(cycles))
    requires Legal(Next(k, SleepCall(cycles)), steps) && Quiet(steps)
    ensures k.p.running.p in Run(Next(k, SleepCall(cycles)), steps).p.waiting <==>
            steps == [] || Interrupts(steps) < cycles
  {
    hide KernInv, Next;
    var x := Asleep(k, cycles);
    QuietTimer(Next(k, SleepCall(cycles)), steps, x);
  }
}
