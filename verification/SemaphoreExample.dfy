/** Runs from the start in which semaphore calls return what they should not. */
module SemaphoreExample {
  import opened Bags
  import opened Timers
  import opened Processes
  import opened Semaphores
  import opened SemaphoreLaws
  import opened KernelRuns
  import opened KernelExample
  import opened SemaphoreCalls

  /** The step is possible in k and leads to t. */
  ghost predicate Leads(k: Kern, step: Step, t: Kern) {
    Enabled(k, step) && Next(k, step) == t
  }

  ghost predicate Runs(k: Kern, steps: seq<Step>, t: Kern) {
    Legal(k, steps) && Run(k, steps) == t
  }

  lemma OneStep(k: Kern, step: Step, t: Kern)
    requires Leads(k, step, t)
    ensures Runs(k, [step], t)
  {
    hide Enabled, Next;
    FirstStep(k, step, []);
    assert [step] + [] == [step];
  }

  lemma {:induction false} RunsOn(k: Kern, a: seq<Step>, t: Kern, b: seq<Step>, u: Kern)
    requires Runs(k, a, t) && Runs(t, b, u)
    ensures Runs(k, a + b, u)
    decreases |a|
  {
    hide Enabled, Next;
    if a == [] {
      assert a + b == b;
    } else {
      RunsOn(Next(k, a[0]), a[1..], t, b, u);
      assert (a + b)[1..] == a[1..] + b;
    }
  }

  lemma FourSteps(k: Kern, a: Step, k1: Kern, b: Step, k2: Kern, c: Step, k3: Kern, d: Step, t: Kern)
    requires Leads(k, a, k1) && Leads(k1, b, k2) && Leads(k2, c, k3) && Leads(k3, d, t)
    ensures Runs(k, [a, b, c, d], t)
  {
    hide Leads, Runs;
    OneStep(k, a, k1);
    OneStep(k1, b, k2);
    OneStep(k2, c, k3);
    OneStep(k3, d, t);
    RunsOn(k, [a], k1, [b], k2);
    RunsOn(k2, [c], k3, [d], t);
    RunsOn(k, [a] + [b], k2, [c] + [d], t);
    assert [a] + [b] + ([c] + [d]) == [a, b, c, d];
  }

  // ---- a PCB used again

  /** Process 1 has created semaphore 3: it has descriptor 0 of it, with fd 0. */
  ghost predicate HasFirst(x: Sems) {
    && x.semList == [0] && x.ids[0] == 3 && x.attached[0] == [0] && x.waiters[0] == []
    && x.owned[1] == [0] && x.descs[0] == SemDesc(1, 0, 0)
    && |x.freeDescs| > 0 && x.freeDescs[0] == 1 && |x.freeSems| > 0 && x.freeSems[0] == 1
  }

  lemma Created(k: Kern) returns (t: Kern)
    requires Lists(k.p, 1, [0], [], []) && Two(k.p) && k.p.pcbs[0].status == Ready && BootSems(k.x)
    ensures Leads(k, SemOpenCall(3, 1, 1), t) && HasFirst(t.x)
    ensures Lists(t.p, 1, [0], [], []) && Two(t.p) && t.p.pcbs[0].status == Ready
  {
    assert CreateSet(1) && !ExclSet(1);
    t := Next(k, SemOpenCall(3, 1, 1));
  }

  lemma SwitchLists(k: Kern) returns (t: Kern)
    requires Lists(k.p, 0, [1], [], [])
    ensures Leads(k, PreemptCall, t) && Lists(t.p, 1, [0], [], []) && t.x == k.x
  {
    t := Next(k, PreemptCall);
  }

  /** init starts process 1, which creates semaphore 3 and exits; init reaps it and starts another process, in the same
      PCB. That process has a descriptor from the start, while its last_sem_fd is 0. */
  lemma Inherited(k: Kern) returns (t: Kern)
    requires Boot(k)
    ensures Runs(k, [SpawnCall(0, 0), PreemptCall, SemOpenCall(3, 1, 1), ExitCall(5)]
                    + [WaitCall(0, 0), SpawnCall(0, 0), PreemptCall], t)
    ensures Lists(t.p, 1, [0], [], []) && HasFirst(t.x) && t.x.lastFd[1] == 0
  {
    hide Next, Enabled, Two, BootProcs, BootSems, HasFirst, Runs, Shared;
    SpawnFirst(k);
    var k1 := Next(k, SpawnCall(0, 0));
    SpawnKeepsBootSems(k.x);
    Switch(k1, 0, 1);
    var k2 := Next(k1, PreemptCall);
    var k3 := Created(k2);
    ExitToZombie(k3, 5);
    var k4 := Next(k3, ExitCall(5));
    WaitReaps(k4, 0, 0);
    var k5 := Next(k4, WaitCall(0, 0));
    SpawnAgain(k5);
    var k6 := Next(k5, SpawnCall(0, 0));
    ResetKeepsFirst(k5.x);
    t := SwitchLists(k6);
    FourSteps(k, SpawnCall(0, 0), k1, PreemptCall, k2, SemOpenCall(3, 1, 1), k3, ExitCall(5), k4);
    OneStep(k4, WaitCall(0, 0), k5);
    OneStep(k5, SpawnCall(0, 0), k6);
    OneStep(k6, PreemptCall, t);
    RunsOn(k5, [SpawnCall(0, 0)], k6, [PreemptCall], t);
    RunsOn(k4, [WaitCall(0, 0)], k5, [SpawnCall(0, 0)] + [PreemptCall], t);
    assert [WaitCall(0, 0)] + ([SpawnCall(0, 0)] + [PreemptCall]) == [WaitCall(0, 0), SpawnCall(0, 0), PreemptCall];
    RunsOn(k, [SpawnCall(0, 0), PreemptCall, SemOpenCall(3, 1, 1), ExitCall(5)], k4,
           [WaitCall(0, 0), SpawnCall(0, 0), PreemptCall], t);
  }

  lemma SpawnKeepsBootSems(x: Sems)
    requires BootSems(x)
    ensures BootSems(x.(lastFd := x.lastFd[1 := 0]))
  {
  }

  lemma ResetKeepsFirst(x: Sems)
    requires HasFirst(x)
    ensures HasFirst(x.(lastFd := x.lastFd[1 := 0]))
  {
  }

  /** It creates semaphore 4, and gets fd 0, which names the descriptor of semaphore 3 that it never opened. */
  lemma InheritedFd(k: Kern) returns (t: Kern)
    requires Boot(k)
    ensures Runs(k, [SpawnCall(0, 0), PreemptCall, SemOpenCall(3, 1, 1), ExitCall(5)]
                    + [WaitCall(0, 0), SpawnCall(0, 0), PreemptCall], t)
    ensures t.p.running == Ref(1)
    ensures var u := SemOpen(t, 4, 1, 1);
            && u.p.running == Ref(1) && Returned(u) == 0 && u.x.owned[1] == [0, 1]
            && u.x.ids[u.x.descs[1].sem] == 4 && Lookup(u, 0) == Ref(0) && u.x.ids[u.x.descs[0].sem] == 3
  {
    hide Boot, Runs;
    t := Inherited(k);
    OpenBeside(t);
  }

  lemma OpenBeside(k: Kern)
    requires k.p.running == Ref(1) && HasFirst(k.x) && k.x.lastFd[1] == 0
    ensures var u := SemOpen(k, 4, 1, 1);
            && u.p.running == Ref(1) && Returned(u) == 0 && u.x.owned[1] == [0, 1]
            && u.x.ids[u.x.descs[1].sem] == 4 && Lookup(u, 0) == Ref(0) && u.x.ids[u.x.descs[0].sem] == 3
  {
    assert CreateSet(1) && !ExclSet(1);
    assert ById(k.x, [0], 4) == Null;
    assert Creates(k, 4, 1);
    var c := k.(x := Create(k.x, 4, 1));
    var u := SemOpen(k, 4, 1, 1);
    assert u == Attach(c, 1);
    assert u.x.owned[1] == [0, 1];
    assert ByFd(u.x, [0, 1], 0) == Ref(0);
  }

  /** If it closes that one first, its last_sem_fd is -1, and so is what a successful semOpen returns. */
  lemma NegativeFd(k: Kern) returns (t: Kern)
    requires Boot(k)
    ensures Runs(k, [SpawnCall(0, 0), PreemptCall, SemOpenCall(3, 1, 1), ExitCall(5)]
                    + [WaitCall(0, 0), SpawnCall(0, 0), PreemptCall], t)
    ensures t.p.running == Ref(1)
    ensures var c := SemClose(t, 0);
            && c.p.running == Ref(1) && Returned(c) == 0
            && var u := SemOpen(c, 4, 1, 1);
               && u.p.running == Ref(1) && Returned(u) == -1 && u.x.owned[1] == [0] && u.x.ids[u.x.descs[0].sem] == 4
  {
    hide Boot, Runs;
    t := Inherited(k);
    assert CreateSet(1) && !ExclSet(1);
    assert ByFd(t.x, [0], 0) == Ref(0);
    var c := SemClose(t, 0);
    assert c.x.owned[1] == [] && c.x.lastFd[1] == -1 && c.x.semList == [];
  }

  // ---- a stale return value

  /** A post to a semaphore nobody has fails; the next, which wakes process 1, returns that error. */
  lemma StaleError(k: Kern)
    requires Lists(k.p, 0, [], [1], []) && Shared(k.x, [0], [1])
    ensures var failed := SemPost(k, 9);
            && failed.p.running == Ref(0) && Returned(failed) == ESEMPOST
            && var posted := SemPost(failed, 0);
               && posted.p.running == Ref(0) && posted.p.ready == [1] && Returned(posted) == ESEMPOST
  {
    assert ByFd(k.x, [0], 9) == ByFd(k.x, [], 9) == Null;
    assert ByFd(k.x, [0], 0) == Ref(0);
  }

  /** From the start. */
  lemma StaleErrorFromTheStart(k: Kern)
    requires Boot(k)
    ensures var failed := SemPost(AfterBlocking(k), 9);
            && failed.p.running == Ref(0) && Returned(failed) == ESEMPOST
            && var posted := SemPost(failed, 0);
               && posted.p.running == Ref(0) && posted.p.ready == [1] && Returned(posted) == ESEMPOST
  {
    hide Boot, SemPost, AfterBlocking;
    StaleError(AfterBlocking(k));
  }
}
