/** internal_schedule: it keeps the laws, what it computes, and how long a ready process waits. */
module Scheduling {
  import opened Bags
  import opened Timers
  import opened Processes
  import opened ProcessLaws
  import opened ProcessSteps
  import opened ProcessExits

  lemma FirstSleeperBag(ts: seq<Timer>)
    requires ts != []
    ensures multiset(Pcbs(ts)) == multiset{ts[0].pcb} + multiset(Pcbs(ts[1..]))
  {
    assert Pcbs(ts) == [ts[0].pcb] + Pcbs(ts[1..]);
  }

  lemma FirstSleeperWaits(s: Proc, sw: multiset<Block>)
    requires Placed(s) && Waiters(s, sw) && s.timers != []
    ensures s.timers[0].pcb in s.waiting
    ensures s.timers[0].pcb !in Pcbs(s.timers[1..]) && s.timers[0].pcb !in sw
  {
    var p := s.timers[0].pcb;
    FirstSleeperBag(s.timers);
    InBag(s.waiting, p);
    InBag(Pcbs(s.timers[1..]), p);
    OnePlace(s, p);
    assert (multiset(Pcbs(s.timers)) + sw)[p] <= multiset(s.waiting)[p];
  }

  lemma WakeKeepsPlaces(s: Proc, n: nat)
    requires Placed(s) && s.timers != [] && n <= |s.ready| && s.timers[0].pcb in s.waiting
    ensures Placed(WakeFirst(s, n))
  {
    SplitBag(s.ready, n);
    RemoveBag(s.waiting, s.timers[0].pcb);
    assert PlaceBag(WakeFirst(s, n)) == PlaceBag(s);
  }

  lemma WakeKeepsTimers(s: Proc, n: nat)
    requires TimersOk(s) && s.timers != [] && n <= |s.ready|
    ensures TimersOk(WakeFirst(s, n))
  {
    var t := WakeFirst(s, n);
    SortedTail(s.timers);
    assert TimerBlocks(s.timers) == [s.timers[0].block] + TimerBlocks(s.timers[1..]);
    assert TimerBag(t) == TimerBag(s);
  }

  lemma WakeKeepsStatuses(s: Proc, n: nat)
    requires Placed(s) && Statuses(s) && s.timers != [] && n <= |s.ready| && s.timers[0].pcb in s.waiting
    ensures Statuses(WakeFirst(s, n))
  {
    PlacesApart(s);
    var t := WakeFirst(s, n);
    forall p | p in t.ready
      ensures t.pcbs[p].status in {Running, Ready}
    {
      assert p == s.timers[0].pcb || p in s.ready;
    }
  }

  /** The wake-ups of others are unaffected when one process leaves the waiting list. */
  lemma LeavingKeepsWakeups(s: Proc, t: Proc, q: Block)
    requires Placed(s) && NoLostWakeup(s) && q in s.waiting && t.waiting == Remove(s.waiting, q)
    requires t.zombies == s.zombies && t.children == s.children
    requires forall p: Block :: p != q ==> t.pcbs[p] == s.pcbs[p]
    ensures NoLostWakeup(t)
  {
    WithoutDuplicates(s);
    PlacesApart(s);
    RemovedIsGone(s.waiting, q);
    forall p, c | p in t.waiting && c in t.children[p] && c in t.zombies
      ensures !AwaitedBy(t, c, p)
    {
      assert !AwaitedBy(s, c, p);
    }
  }

  lemma WakeFirstKeepsInv(s: Proc, sw: multiset<Block>, n: nat)
    requires Inv(s, sw) && s.timers != [] && n <= |s.ready|
    ensures Inv(WakeFirst(s, n), sw)
  {
    hide Placed, Kin, TimersOk, Statuses, Pids, ExitsAccounted, NoLostWakeup;
    var t, p := WakeFirst(s, n), s.timers[0].pcb;
    FirstSleeperWaits(s, sw);
    FirstSleeperBag(s.timers);
    assert multiset(Pcbs(s.timers)) + sw == (multiset(Pcbs(t.timers)) + sw) + multiset{p};
    CoverWithout(multiset(Pcbs(s.timers)) + sw, multiset(Pcbs(t.timers)) + sw, s.waiting, p);
    InBag(Pcbs(t.timers), p);
    WakeKeepsPlaces(s, n);
    WakeKeepsTimers(s, n);
    WakeKeepsStatuses(s, n);
    LeaveWaiters(s, t, sw, sw, p);
    LeavingKeepsWakeups(s, t, p);
    IdentitiesKeep(s, t);
  }

  lemma {:induction false} WakeDueKeepsInv(s: Proc, sw: multiset<Block>, n: nat)
    requires Inv(s, sw) && n <= |s.ready|
    ensures Inv(WakeDue(s, n), sw)
    decreases |s.timers|
  {
    if s.timers != [] && s.time >= s.timers[0].time {
      var s1 := WakeFirst(s, n);
      assert WakeDue(s, n) == WakeDue(s1, n + 1);
      WakeFirstKeepsInv(s, sw, n);
      WakeDueKeepsInv(s1, sw, n + 1);
    }
  }

  lemma RotateKeepsPlaces(s: Proc)
    requires Placed(s) && s.running.Ref?
    ensures Placed(Rotate(s))
  {
    if s.ready != [] {
      PopFront(s.ready);
      assert PlaceBag(Rotate(s)) == PlaceBag(s);
    }
  }

  lemma RotateKeepsWaiters(s: Proc, sw: multiset<Block>)
    requires Placed(s) && Waiters(s, sw) && s.running.Ref?
    ensures Waiters(Rotate(s), sw)
  {
    PlacesApart(s);
  }

  lemma RotateKeepsStatuses(s: Proc)
    requires Placed(s) && Statuses(s) && s.running.Ref?
    ensures Statuses(Rotate(s))
  {
    PlacesApart(s);
  }

  lemma RotateKeepsWakeups(s: Proc)
    requires Placed(s) && NoLostWakeup(s) && s.running.Ref?
    ensures NoLostWakeup(Rotate(s))
  {
    PlacesApart(s);
    var t := Rotate(s);
    forall p, c | p in t.waiting && c in t.children[p] && c in t.zombies
      ensures !AwaitedBy(t, c, p)
    {
      assert !AwaitedBy(s, c, p);
    }
  }

  lemma RotateKeepsInv(s: Proc, sw: multiset<Block>)
    requires Inv(s, sw) && s.running.Ref?
    ensures Inv(Rotate(s), sw)
  {
    hide Placed;
    hide Kin;
    hide Waiters;
    hide Pids;
    hide ExitsAccounted;
    hide NoLostWakeup;
    RotateKeepsPlaces(s);
    RotateKeepsWaiters(s, sw);
    RotateKeepsStatuses(s);
    RotateKeepsWakeups(s);
    IdentitiesKeep(s, Rotate(s));
  }

  lemma ScheduleKeepsInv(s: Proc, sw: multiset<Block>)
    requires Inv(s, sw) && s.running.Ref?
    ensures Inv(Schedule(s), sw)
  {
    hide Inv;
    WakeDueKeepsInv(s, sw, 0);
    RotateKeepsInv(WakeDue(s, 0), sw);
  }

  lemma TimeKeepsInv(s: Proc, sw: multiset<Block>)
    requires Inv(s, sw)
    ensures Inv(s.(time := s.time + 1), sw)
  {
    var t := s.(time := s.time + 1);
    assert PlaceBag(t) == PlaceBag(s);
    IdentitiesKeep(s, t);
    assert forall c, p :: AwaitedBy(t, c, p) <==> AwaitedBy(s, c, p);
  }

  lemma TickKeepsInv(s: Proc, sw: multiset<Block>)
    requires Inv(s, sw) && s.running.Ref?
    ensures Inv(Tick(s), sw)
  {
    hide Inv;
    TimeKeepsInv(s, sw);
    ScheduleKeepsInv(s.(time := s.time + 1), sw);
  }

  // ---- what a call of schedule computes

  /** The waiting list without some of its members, the others in order. */
  function Without(l: seq<Block>, out: seq<Block>): seq<Block> {
    if l == [] then []
    else if l[0] in out then Without(l[1..], out)
    else [l[0]] + Without(l[1..], out)
  }

  lemma {:induction false} RemoveThenWithout(l: seq<Block>, x: Block, out: seq<Block>)
    requires NoDuplicates(l)
    ensures Without(Remove(l, x), out) == Without(l, [x] + out)
  {
    if l != [] {
      if l[0] == x {
        WithoutAbsent(l[1..], x, out);
      } else {
        RemoveThenWithout(l[1..], x, out);
      }
    }
  }

  lemma {:induction false} WithoutAbsent(l: seq<Block>, x: Block, out: seq<Block>)
    requires x !in l
    ensures Without(l, out) == Without(l, [x] + out)
  {
    if l != [] {
      WithoutAbsent(l[1..], x, out);
    }
  }

  lemma {:induction false} WithoutNone(l: seq<Block>)
    ensures Without(l, []) == l
  {
    if l != [] {
      WithoutNone(l[1..]);
      assert l == [l[0]] + l[1..];
    }
  }

  /** t is s after the wake-up loop: exactly the processes whose timers are due have left the waiting
      list, and they stand, in timer order, behind the first n ready ones. */
  ghost predicate Woken(s: Proc, t: Proc, n: nat)
    requires n <= |s.ready|
  {
    var due := Pcbs(Due(s.timers, s.time));
    && t.timers == Later(s.timers, s.time)
    && t.ready == s.ready[..n] + due + s.ready[n..]
    && t.waiting == Without(s.waiting, due)
    && (forall p: Block :: t.pcbs[p] == if p in due then s.pcbs[p].(status := Ready, timer := Null) else s.pcbs[p])
    && t.running == s.running && t.zombies == s.zombies && t.children == s.children && t.freePcbs == s.freePcbs
    && t.time == s.time
  }

  lemma WokenStep(s: Proc, n: nat, t: Proc)
    requires s.timers != [] && s.time >= s.timers[0].time && n <= |s.ready| && NoDuplicates(s.waiting)
    requires Woken(WakeFirst(s, n), t, n + 1)
    ensures Woken(s, t, n)
  {
    var s1, x := WakeFirst(s, n), s.timers[0];
    var due, due1 := Pcbs(Due(s.timers, s.time)), Pcbs(Due(s1.timers, s.time));
    assert due == [x.pcb] + due1;
    assert s1.ready[..n + 1] == s.ready[..n] + [x.pcb] && s1.ready[n + 1..] == s.ready[n..];
    assert t.ready == s.ready[..n] + due + s.ready[n..];
    RemoveThenWithout(s.waiting, x.pcb, due1);
  }

  lemma {:induction false} WakeDueComputes(s: Proc, n: nat)
    requires Sorted(s.timers) && NoDuplicates(s.waiting) && n <= |s.ready|
    ensures Woken(s, WakeDue(s, n), n)
    decreases |s.timers|
  {
    if s.timers != [] && s.time >= s.timers[0].time {
      SortedTail(s.timers);
      RemoveNoDuplicates(s.waiting, s.timers[0].pcb);
      WakeDueComputes(WakeFirst(s, n), n + 1);
      WokenStep(s, n, WakeDue(s, n));
    } else {
      NoneDue(s.timers, s.time);
      WithoutNone(s.waiting);
      assert s.ready == s.ready[..n] + s.ready[n..];
    }
  }

  /** Schedule as a function of the time: exactly the sleepers due by now leave the waiting list, in
      timer order, to the front of the ready list; the timers left are all for later; then the head
      of the ready list runs and the old running process goes to its tail. */
  lemma ScheduleComputes(s: Proc, sw: multiset<Block>)
    requires Inv(s, sw) && s.running.Ref?
    ensures var t, due := Schedule(s), Pcbs(Due(s.timers, s.time));
            var queue := due + s.ready;
            && (forall x :: x in t.timers <==> x in s.timers && x.time > s.time)
            && (forall x :: x in s.timers ==> (x.time <= s.time <==> x.pcb in due))
            && t.waiting == Without(s.waiting, due)
            && t.running == (if queue == [] then s.running else Ref(queue[0]))
            && t.ready == (if queue == [] then [] else queue[1..] + [s.running.p])
            && |due| + |t.timers| == |s.timers|
  {
    hide Inv, WakeDue, Due, Later, Pcbs, Without;
    WakesExactly(s, sw);
    DueAndLater(s.timers, s.time);
    var due := Pcbs(Due(s.timers, s.time));
    assert s.ready[..0] + due + s.ready[0..] == due + s.ready;
    forall x | x in s.timers
      ensures x.time <= s.time <==> x.pcb in Pcbs(Due(s.timers, s.time))
    {
      DueBySleeper(s, sw, x);
    }
  }

  lemma WakesExactly(s: Proc, sw: multiset<Block>)
    requires Inv(s, sw)
    ensures Woken(s, WakeDue(s, 0), 0)
  {
    hide Woken;
    WithoutDuplicates(s);
    WakeDueComputes(s, 0);
  }

  /** A sleeper has one timer only, so it is woken exactly when that timer is due. */
  lemma DueBySleeper(s: Proc, sw: multiset<Block>, x: Timer)
    requires Inv(s, sw) && x in s.timers
    ensures x.time <= s.time <==> x.pcb in Pcbs(Due(s.timers, s.time))
  {
    var due := Due(s.timers, s.time);
    DueAndLater(s.timers, s.time);
    if x in due {
      var i :| 0 <= i < |due| && due[i] == x;
      assert Pcbs(due)[i] == x.pcb;
    }
    if x.pcb in Pcbs(due) {
      var i :| 0 <= i < |due| && Pcbs(due)[i] == x.pcb;
      assert due[i] in due;
      SleepersHaveOneTimer(s, sw, x, due[i]);
    }
  }

  lemma SleepersHaveOneTimer(s: Proc, sw: multiset<Block>, x: Timer, y: Timer)
    requires Placed(s) && Waiters(s, sw) && x in s.timers && y in s.timers && x.pcb == y.pcb
    ensures x == y
  {
    var i :| 0 <= i < |s.timers| && s.timers[i] == x;
    var j :| 0 <= j < |s.timers| && s.timers[j] == y;
    forall p | p in Pcbs(s.timers)
      ensures multiset(Pcbs(s.timers))[p] <= 1
    {
      OnePlace(s, p);
      assert (multiset(Pcbs(s.timers)) + sw)[p] <= multiset(s.waiting)[p];
    }
    BagNoDuplicates(Pcbs(s.timers));
    assert Pcbs(s.timers)[i] == Pcbs(s.timers)[j];
  }

  // ---- how long a ready process waits

  /** One call of internal_schedule: by the timer interrupt, which advances the clock, or by preempt. */
  function ScheduleOnce(s: Proc, interrupt: bool): (t: Proc)
    requires s.running.Ref?
    ensures t.running.Ref?
  {
    if interrupt then Tick(s) else Schedule(s)
  }

  function ScheduleAll(s: Proc, interrupts: seq<bool>): Proc
    requires s.running.Ref?
    decreases |interrupts|
  {
    if interrupts == [] then s else ScheduleAll(ScheduleOnce(s, interrupts[0]), interrupts[1..])
  }

  lemma OneCallKeepsInv(s: Proc, sw: multiset<Block>, interrupt: bool)
    requires Inv(s, sw) && s.running.Ref?
    ensures Inv(ScheduleOnce(s, interrupt), sw)
  {
    if interrupt {
      TickKeepsInv(s, sw);
    } else {
      ScheduleKeepsInv(s, sw);
    }
  }

  /** t is what one call may make of s: some d timers went off, and the queue moved on by one. */
  ghost predicate MovedOn(s: Proc, t: Proc, d: nat) {
    && d == |s.timers| - |t.timers|
    && forall k :: 0 <= k < |s.ready| ==>
         if k + d == 0 then t.running == Ref(s.ready[k])
         else k + d - 1 < |t.ready| && t.ready[k + d - 1] == s.ready[k]
  }

  lemma QueueMovesOn(s: Proc, t: Proc, due: seq<Block>)
    requires s.running.Ref? && |due| + |t.timers| == |s.timers|
    requires due + s.ready != [] ==>
               t.running == Ref((due + s.ready)[0]) && t.ready == (due + s.ready)[1..] + [s.running.p]
    ensures MovedOn(s, t, |due|)
  {
    forall k | 0 <= k < |s.ready|
      ensures if k + |due| == 0 then t.running == Ref(s.ready[k])
              else k + |due| - 1 < |t.ready| && t.ready[k + |due| - 1] == s.ready[k]
    {
      assert (due + s.ready)[k + |due|] == s.ready[k];
    }
  }

  /** One call brings every ready process nearer to the processor, counting both the processes ahead
      of it and the timers that may still put processes ahead of it. */
  lemma OneCallCloser(s: Proc, sw: multiset<Block>, interrupt: bool) returns (d: nat)
    requires Inv(s, sw) && s.running.Ref?
    ensures MovedOn(s, ScheduleOnce(s, interrupt), d)
  {
    hide Inv;
    hide WakeDue;
    hide Rotate;
    var s1 := if interrupt then s.(time := s.time + 1) else s;
    if interrupt { TimeKeepsInv(s, sw); }
    ScheduleComputes(s1, sw);
    d := |Due(s1.timers, s1.time)|;
    QueueMovesOn(s, ScheduleOnce(s, interrupt), Pcbs(Due(s1.timers, s1.time)));
  }

  lemma RunningNotReady(s: Proc, sw: multiset<Block>, k: nat)
    requires Inv(s, sw) && k < |s.ready|
    ensures s.running != Ref(s.ready[k])
  {
    PlacesApart(s);
  }

  /** A process at ready index k first runs after at least k+1 and at most k+1+T calls of schedule alone,
      T being the number of timers, however the calls fall. */
  lemma {:induction false} RoundRobinBound(s: Proc, sw: multiset<Block>, interrupts: seq<bool>, k: nat) returns (n: nat)
    requires Inv(s, sw) && s.running.Ref? && k < |s.ready|
    requires |interrupts| >= k + 1 + |s.timers|
    ensures k + 1 <= n <= k + 1 + |s.timers|
    ensures ScheduleAll(s, interrupts[..n]).running == Ref(s.ready[k])
    ensures forall m :: 0 <= m < n ==> ScheduleAll(s, interrupts[..m]).running != Ref(s.ready[k])
    decreases |interrupts|
  {
    hide Inv;
    hide ScheduleOnce;
    var t := ScheduleOnce(s, interrupts[0]);
    var d := OneCallCloser(s, sw, interrupts[0]);
    var p := s.ready[k];
    RunningNotReady(s, sw, k);
    if k + d == 0 {
      assert t.running == Ref(p);
      n := 1;
      assert interrupts[..1][1..] == [];
      assert ScheduleAll(s, interrupts[..1]) == ScheduleAll(t, []);
    } else {
      assert t.ready[k + d - 1] == p;
      OneCallKeepsInv(s, sw, interrupts[0]);
      var m := RoundRobinBound(t, sw, interrupts[1..], k + d - 1);
      n := m + 1;
      forall i | 0 < i <= n
        ensures ScheduleAll(s, interrupts[..i]) == ScheduleAll(t, interrupts[1..][..i - 1])
      {
        assert interrupts[..i][1..] == interrupts[1..][..i - 1];
      }
    }
  }
}
