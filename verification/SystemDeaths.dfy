/** Which PCBs have no process that could make a call, and what changes that: exit and the start of a process. */
module SystemDeaths {
  import opened Bags
  import opened Timers
  import opened Processes
  import opened ProcessLaws
  import opened ProcessSteps
  import opened ProcessExits
  import opened SystemRuns
  import opened SystemParts
  import Semaphores
  import SemaphoreLaws
  import KernelRuns
  import MessageQueueLaws
  import ResourceLaws

  /** The PCB is free or a zombie's. */
  predicate Dead(p: Proc, b: Block) {
    b in p.freePcbs || b in p.zombies
  }

  /** The call starts a process in this PCB. */
  predicate Starts(s: System, call: Call, b: Block)
    requires Enabled(s, call)
  {
    call.KernelCall? && (call.step.SpawnCall? || call.step.ForkCall?) && s.k.p.freePcbs[0] == b
  }

  /** The process in this PCB exits. */
  predicate Ends(s: System, call: Call, b: Block)
    requires Enabled(s, call)
  {
    call.KernelCall? && call.step.ExitCall? && s.k.p.running.p == b
  }

  // ---- free PCBs and zombies, step by step

  lemma {:induction false} WakeDueFrees(s: Proc, n: nat)
    requires n <= |s.ready|
    ensures WakeDue(s, n).freePcbs == s.freePcbs && WakeDue(s, n).zombies == s.zombies
    decreases |s.timers|
  {
    if s.timers != [] && s.time >= s.timers[0].time {
      WakeDueFrees(WakeFirst(s, n), n + 1);
    }
  }

  /** The steps that neither start nor end a process leave both alone. */
  lemma QuietStep(k: Semaphores.Kern, step: KernelRuns.Step)
    requires KernelRuns.Enabled(k, step)
    requires !step.SpawnCall? && !step.ForkCall? && !step.ExitCall? && !step.WaitCall?
    ensures KernelRuns.Next(k, step).p.freePcbs == k.p.freePcbs && KernelRuns.Next(k, step).p.zombies == k.p.zombies
  {
    if step.Interrupt? {
      WakeDueFrees(k.p.(time := k.p.time + 1), 0);
    } else if step.PreemptCall? {
      WakeDueFrees(KernelRuns.RecordCall(k, step).p, 0);
    }
  }

  /** A zombie reaped is a free PCB. */
  lemma WaitFrees(k: Semaphores.Kern, step: KernelRuns.Step)
    requires KernelRuns.Enabled(k, step) && step.WaitCall?
    ensures var p := KernelRuns.RecordCall(k, step).p; var cs := p.children[p.running.p];
            var t := KernelRuns.Next(k, step).p;
            if cs != [] && WaitReturns(p) then
              var z := cs[Awaited(p, cs, p.pcbs[p.running.p].arg0)];
              t.freePcbs == [z] + k.p.freePcbs && t.zombies == Remove(k.p.zombies, z) && p.pcbs[z].status == Zombie
            else t.freePcbs == k.p.freePcbs && t.zombies == k.p.zombies
  {
  }

  lemma WaitDeadIff(k: Semaphores.Kern, step: KernelRuns.Step, b: Block)
    requires KernelRuns.KernInv(k) && KernelRuns.Enabled(k, step) && step.WaitCall?
    ensures Dead(KernelRuns.Next(k, step).p, b) <==> Dead(k.p, b)
  {
    hide KernelRuns.KernInv, KernelRuns.Next;
    WaitFrees(k, step);
    PlacesOnce(k);
    var p := KernelRuns.RecordCall(k, step).p;
    var cs := p.children[p.running.p];
    if cs != [] && WaitReturns(p) {
      var z := cs[Awaited(p, cs, p.pcbs[p.running.p].arg0)];
      ReapedChild(k, p.running.p, z);
      RemovedIsGone(k.p.zombies, z);
    }
  }

  lemma PlacesOnce(k: Semaphores.Kern)
    requires KernelRuns.KernInv(k)
    ensures Apart(k.p) && NoDuplicates(k.p.zombies) && NoDuplicates(k.p.freePcbs)
  {
    WithoutDuplicates(k.p);
    PlacesApart(k.p);
  }

  lemma ReapedChild(k: Semaphores.Kern, r: Block, z: Block)
    requires KernelRuns.KernInv(k) && z in k.p.children[r] && k.p.pcbs[z].status == Zombie
    ensures z in k.p.zombies
  {
    ZombieChild(k.p, SemaphoreLaws.WaiterBag(k.x), r, z);
  }

  lemma SpawnDeadIff(k: Semaphores.Kern, step: KernelRuns.Step, b: Block)
    requires KernelRuns.KernInv(k) && KernelRuns.Enabled(k, step) && (step.SpawnCall? || step.ForkCall?)
    ensures Dead(KernelRuns.Next(k, step).p, b) <==> Dead(k.p, b) && b != k.p.freePcbs[0]
  {
    hide KernelRuns.KernInv;
    PlacesOnce(k);
    assert KernelRuns.Next(k, step).p.freePcbs == k.p.freePcbs[1..];
    assert k.p.freePcbs == [k.p.freePcbs[0]] + k.p.freePcbs[1..];
  }

  lemma ExitDeadIff(k: Semaphores.Kern, step: KernelRuns.Step, b: Block)
    requires KernelRuns.KernInv(k) && KernelRuns.Enabled(k, step) && step.ExitCall?
    ensures Dead(KernelRuns.Next(k, step).p, b) <==> Dead(k.p, b) || b == k.p.running.p
  {
    hide Inv;
    KernelRuns.RecordCallKeepsInv(k, step);
    var p, sw := KernelRuns.RecordCall(k, step).p, SemaphoreLaws.WaiterBag(k.x);
    if AwaitedBy(p, p.running.p, p.pcbs[p.running.p].parent.p) {
      HandOffEffect(p, sw);
    } else {
      ExitToZombieEffect(p, sw);
    }
    hide Exit;
  }

  /** A PCB is dead after a call exactly when its process exits, or it was dead before and gets no new process. */
  lemma DeadIff(s: System, call: Call, b: Block)
    requires SysInv(s) && Enabled(s, call)
    ensures Dead(Next(s, call).k.p, b) <==> Ends(s, call, b) || (Dead(s.k.p, b) && !Starts(s, call, b))
  {
    hide KernelRuns.KernInv, MessageQueueLaws.MailInv, ResourceLaws.RegInv, Next, KernelRuns.Next;
    if call.KernelCall? {
      KernelParts(s, call.step);
      if call.step.SpawnCall? || call.step.ForkCall? {
        SpawnDeadIff(s.k, call.step, b);
      } else if call.step.ExitCall? {
        ExitDeadIff(s.k, call.step, b);
      } else if call.step.WaitCall? {
        WaitDeadIff(s.k, call.step, b);
      } else {
        QuietStep(s.k, call.step);
      }
    } else {
      OnlyRegisters(s, call);
    }
  }

  /** Who makes a call is not dead. */
  lemma CallerAlive(s: System)
    requires SysInv(s) && s.k.p.running.Ref?
    ensures !Dead(s.k.p, s.k.p.running.p)
  {
    PlacesApart(s.k.p);
  }
}
