/** The two ways an exit status reaches the parent, wait's reaping and exit's hand-off, keep the laws. */
module ProcessExits {
  import opened Bags
  import opened Timers
  import opened Processes
  import opened ProcessLaws
  import opened ProcessSteps

  // ---- wait finds a zombie

  /** Child c leaves the children list of p, which becomes cs, for the free list. */
  ghost predicate Buried(s: Proc, t: Proc, p: Block, cs: seq<Block>, c: Block) {
    && t.freePcbs == [c] + s.freePcbs && t.init == s.init
    && t.children == s.children[p := cs] && multiset(s.children[p]) == multiset(cs) + multiset{c}
    && forall q: Block :: t.pcbs[q].parent == s.pcbs[q].parent
  }

  lemma BurialKeepsKinBag(s: Proc, t: Proc, p: Block, cs: seq<Block>, c: Block)
    requires Buried(s, t, p, cs, c)
    ensures KinBag(t) == KinBag(s)
  {
    SumLoses(s.children, p, cs, c);
  }

  lemma BurialKeepsKin(s: Proc, t: Proc, p: Block, cs: seq<Block>, c: Block)
    requires Kin(s) && Buried(s, t, p, cs, c)
    requires forall z :: z in t.zombies ==> z in s.zombies
    requires s.children[c] == [] && c != p
    ensures Kin(t)
  {
    BurialKeepsKinBag(s, t, p, cs, c);
    InBag(s.children[p], c);
    forall d | d in cs
      ensures d in s.children[p]
    {
      InBag(cs, d);
      InBag(s.children[p], d);
    }
    assert forall q: Block, d :: d in t.children[q] ==> d in s.children[q];
  }

  lemma RecordsConcat(s: Proc, a: seq<Block>, b: seq<Block>)
    ensures Records(s, a + b) == Records(s, a) + Records(s, b)
  {
  }

  /** Removing a zombie's record along with the zombie. */
  lemma RecordsRemove(s: Proc, zs: seq<Block>, z: Block)
    requires z in zs
    ensures multiset(Records(s, zs)) == multiset(Records(s, Remove(zs, z))) + multiset{Record(s, z)}
  {
    var k := RemoveSplits(zs, z);
    var front, back := zs[..k], zs[k + 1..];
    assert zs == front + ([z] + back);
    assert Records(s, [z]) == [Record(s, z)];
    RecordsConcat(s, front, [z] + back);
    RecordsConcat(s, [z], back);
    RecordsConcat(s, front, back);
    hide Records, Record;
  }

  lemma BurialKeepsExits(s: Proc, t: Proc, c: Block)
    requires Placed(s) && ExitsAccounted(s) && c in s.zombies
    requires forall q: Block :: SameIdentity(s.pcbs[q], t.pcbs[q])
    requires t.zombies == Remove(s.zombies, c) && t.freePcbs == [c] + s.freePcbs
    requires t.delivered == s.delivered + [Record(s, c)] && t.exited == s.exited && t.lastPid == s.lastPid
    ensures ExitsAccounted(t)
  {
    RecordsRemove(s, s.zombies, c);
    SameRecords(s, t, t.zombies);
    WithoutDuplicates(s);
    RemovedIsGone(s.zombies, c);
    forall p: Block, x | p !in t.freePcbs && p !in t.zombies && x in t.exited
      ensures t.pcbs[p].pid != x.pid
    {
      assert p !in s.zombies;
    }
  }

  lemma BurialKeepsPids(s: Proc, t: Proc, c: Block)
    requires Pids(s) && t.freePcbs == [c] + s.freePcbs && t.lastPid == s.lastPid
    requires forall q: Block :: t.pcbs[q].pid == s.pcbs[q].pid
    ensures Pids(t)
  {
    forall p: Block, q: Block | p !in t.freePcbs && q !in t.freePcbs && p != q
      ensures t.pcbs[p].pid != t.pcbs[q].pid
    {
      assert p !in s.freePcbs && q !in s.freePcbs;
    }
  }

  lemma BuryKeepsPlaces(s: Proc, t: Proc, c: Block)
    requires Placed(s) && c in s.zombies
    requires t.zombies == Remove(s.zombies, c) && t.freePcbs == [c] + s.freePcbs
    requires t.ready == s.ready && t.waiting == s.waiting && t.running == s.running
    ensures Placed(t)
  {
    RemoveBag(s.zombies, c);
    assert PlaceBag(t) == PlaceBag(s);
  }

  /** With fewer zombies and children, and the same waiters, no wake-up gets lost. */
  lemma FewerKeepWakeups(s: Proc, t: Proc)
    requires NoLostWakeup(s) && t.waiting == s.waiting && t.pcbs == s.pcbs
    requires forall p: Block, c :: c in t.children[p] ==> c in s.children[p]
    requires forall c :: c in t.zombies ==> c in s.zombies
    ensures NoLostWakeup(t)
  {
    forall p, c | p in t.waiting && c in t.children[p] && c in t.zombies
      ensures !AwaitedBy(t, c, p)
    {
      assert !AwaitedBy(s, c, p);
    }
  }

  lemma SameWaiting(s: Proc, t: Proc, sw: multiset<Block>)
    requires Waiters(s, sw) && Statuses(s)
    requires t.waiting == s.waiting && t.timers == s.timers && t.pcbs == s.pcbs && t.ready == s.ready
    requires t.running == s.running
    requires forall c :: c in t.zombies ==> c in s.zombies
    ensures Waiters(t, sw) && Statuses(t)
  {
  }

  /** A child that is a zombie is in the zombie list and has no children of its own. */
  lemma ZombieChild(s: Proc, sw: multiset<Block>, r: Block, z: Block)
    requires Inv(s, sw) && z in s.children[r] && s.pcbs[z].status == Zombie
    ensures z in s.zombies && z !in s.freePcbs && s.children[z] == [] && s.pcbs[z].parent == Ref(r)
  {
    ChildInUse(s, r, z);
    PlaceByStatus(s, sw, z);
  }

  lemma BuryKeepsInv(s: Proc, sw: multiset<Block>, i: nat)
    requires Inv(s, sw) && s.running.Ref? && i < |s.children[s.running.p]|
    requires s.pcbs[s.children[s.running.p][i]].status == Zombie
    ensures Inv(Bury(s, i), sw)
  {
    hide Placed, Kin, Pids, ExitsAccounted, NoLostWakeup, TimersOk, Waiters, Statuses, Remove, NoDuplicates;
    var t, r := Bury(s, i), s.running.p;
    var z := s.children[r][i];
    ZombieChild(s, sw, r, z);
    WithoutDuplicates(s);
    RemovedIsGone(s.zombies, z);
    BuryKeepsPlaces(s, t, z);
    var cs := s.children[r][..i] + s.children[r][i + 1..];
    assert s.children[r] == s.children[r][..i] + [z] + s.children[r][i + 1..];
    BurialKeepsKin(s, t, r, cs, z);
    BurialKeepsExits(s, t, z);
    BurialKeepsPids(s, t, z);
    TimersSame(s, t);
    SameWaiting(s, t, sw);
    assert forall c :: c in cs ==> c in s.children[r];
    FewerKeepWakeups(s, t);
  }

  lemma WaitKeepsInv(s: Proc, sw: multiset<Block>)
    requires Inv(s, sw) && s.running.Ref? && s.pcbs[s.running.p].syscallNum == CALL_WAIT
    requires WaitReturns(s) || s.ready != []
    ensures Inv(Wait(s), sw)
  {
    var r := s.running.p;
    if s.children[r] == [] {
      ReturnKeepsInv(s, sw, EWAIT);
    } else if WaitReturns(s) {
      var i := Awaited(s, s.children[r], s.pcbs[r].arg0);
      BuryKeepsInv(s, sw, i);
      ReturnKeepsInv(Bury(s, i), sw, s.pcbs[s.children[r][i]].pid);
    } else {
      WaitBlocksKeepsInv(s, sw);
    }
  }

  // ---- exit

  lemma NoTimersOfOthers(ts: seq<Timer>, p: Block)
    requires p !in Pcbs(ts)
    ensures NotOf(ts, p) == ts && BlocksOf(ts, p) == []
  {
    if ts != [] {
      assert Pcbs(ts)[0] == ts[0].pcb;
      assert Pcbs(ts) == [ts[0].pcb] + Pcbs(ts[1..]);
      NoTimersOfOthers(ts[1..], p);
      assert ts == [ts[0]] + ts[1..];
    }
  }

  /** Looking a child up by its pid finds that child, pids being distinct. */
  lemma {:induction false} RemovePidIsRemove(s: Proc, children: seq<Block>, c: Block)
    requires c in children
    requires forall d :: d in children && d != c ==> s.pcbs[d].pid != s.pcbs[c].pid
    ensures RemovePid(s, children, s.pcbs[c].pid) == Remove(children, c)
  {
    if children[0] != c {
      assert c in children[1..];
      RemovePidIsRemove(s, children[1..], c);
    }
  }

  /** The facts about a childless dying process, its parent, and whether the parent waits for it. */
  lemma DyingFacts(s: Proc, sw: multiset<Block>)
    requires Inv(s, sw) && CanExit(s) && s.children[s.running.p] == []
    ensures var r, q := s.running.p, s.pcbs[s.running.p].parent.p;
            && q != r && r in s.children[q] && r !in s.freePcbs && q !in s.freePcbs && q !in s.zombies
            && Reparent(s) == s
            && (AwaitedBy(Die(s), r, q) <==> AwaitedBy(s, r, q))
            && (AwaitedBy(s, r, q) ==> q in s.waiting)
  {
    var r, q := s.running.p, s.pcbs[s.running.p].parent.p;
    PlacesApart(s);
    HasParent(s, r);
    if AwaitedBy(s, r, q) {
      PlaceByStatus(s, sw, q);
    }
  }

  /** The parent of a childless process gets SIGCHLD when that exits, whether it waits for it or not. */
  lemma ParentSignalled(s: Proc, sw: multiset<Block>)
    requires Inv(s, sw) && CanExit(s) && s.children[s.running.p] == []
    ensures var q := s.pcbs[s.running.p].parent.p; GotSignal(s.pcbs[q], Exit(s).pcbs[q], SIGCHLD)
  {
    hide Signalled, GotSignal, Reparent, Placed, Kin, TimersOk, Pids, ExitsAccounted, NoLostWakeup, Waiters, Statuses;
    var q := s.pcbs[s.running.p].parent.p;
    DyingFacts(s, sw);
    SignalledGets(s.pcbs[q], SIGCHLD);
    GotSameSignals(s.pcbs[q], Signalled(s.pcbs[q], SIGCHLD), s.pcbs[q], Exit(s).pcbs[q], SIGCHLD);
  }

  /** The whole effect of a childless exit to a parent that waits for it. */
  lemma HandOffEffect(s: Proc, sw: multiset<Block>)
    requires Inv(s, sw) && CanExit(s) && s.children[s.running.p] == []
    requires AwaitedBy(s, s.running.p, s.pcbs[s.running.p].parent.p)
    ensures var r, q, t := s.running.p, s.pcbs[s.running.p].parent.p, Exit(s);
            && t.running == Ref(q) && t.ready == s.ready && t.waiting == Remove(s.waiting, q)
            && t.zombies == s.zombies && t.timers == s.timers && t.freeTimers == s.freeTimers
            && t.children == s.children[q := Remove(s.children[q], r)]
            && t.freePcbs == [r] + s.freePcbs
            && (forall p: Block :: p !in {q, r} ==> t.pcbs[p] == s.pcbs[p])
            && t.pcbs[q].status == Running && t.pcbs[q].timer == Null && t.pcbs[r].timer == Null
            && GotSignal(s.pcbs[q], t.pcbs[q], SIGCHLD)
            && (forall p: Block :: t.pcbs[p].pid == s.pcbs[p].pid && t.pcbs[p].parent == s.pcbs[p].parent)
            && (forall p: Block :: p != r ==> t.pcbs[p].returnValue == s.pcbs[p].returnValue)
            && t.exited == s.exited + [ExitRecord(s.pcbs[r].pid, s.pcbs[r].arg0, s.pcbs[q].pid)]
            && t.delivered == s.delivered + [ExitRecord(s.pcbs[r].pid, s.pcbs[r].arg0, s.pcbs[q].pid)]
            && t.init == s.init && t.lastPid == s.lastPid && t.time == s.time
            && t.pcbs[q].retvalue == s.pcbs[r].pid
            && t.memory == Store(s.memory, s.pcbs[q].arg1, s.pcbs[r].arg0)
  {
    hide Placed, Kin, TimersOk, Waiters, ExitsAccounted, NoLostWakeup, Reparent, Signalled, GotSignal;
    var r, q, d := s.running.p, s.pcbs[s.running.p].parent.p, Die(s);
    DyingFacts(s, sw);
    PlacesApart(s);
    ParentSignalled(s, sw);
    NotWaiting(s, sw, r);
    NoTimersOfOthers(s.timers, r);
    RemoveAppended(s.zombies, r);
    forall c | c in s.children[q] && c != r
      ensures d.pcbs[c].pid != d.pcbs[r].pid
    {
      ChildInUse(s, q, c);
    }
    RemovePidIsRemove(d, s.children[q], r);
  }

  lemma HandOffKeepsPlaces(s: Proc, t: Proc, q: Block)
    requires Placed(s) && s.running.Ref? && q in s.waiting
    requires t.running == Ref(q) && t.ready == s.ready && t.waiting == Remove(s.waiting, q)
    requires t.zombies == s.zombies && t.freePcbs == [s.running.p] + s.freePcbs
    ensures Placed(t)
  {
    RemoveBag(s.waiting, q);
    assert PlaceBag(t) == PlaceBag(s);
  }

  /** The waiters when one that is neither a sleeper nor on a semaphore any more has left them. */
  lemma LeaveWaiters(s: Proc, t: Proc, sw: multiset<Block>, sw': multiset<Block>, q: Block)
    requires Placed(s) && Waiters(s, sw) && q in s.waiting && t.waiting == Remove(s.waiting, q)
    requires forall p: Block :: p != q && p in s.waiting ==> t.pcbs[p] == s.pcbs[p]
    requires multiset(Pcbs(t.timers)) + sw' <= multiset(t.waiting)
    requires forall p: Block :: p != q ==>
               multiset(Pcbs(t.timers))[p] == multiset(Pcbs(s.timers))[p] && sw'[p] == sw[p]
    ensures Waiters(t, sw')
  {
    WithoutDuplicates(s);
    RemovedIsGone(s.waiting, q);
    forall p | p in t.waiting
      ensures WaitsFor(t.pcbs[p], p in Pcbs(t.timers), p in sw')
    {
      InBag(Pcbs(t.timers), p);
      InBag(Pcbs(s.timers), p);
    }
  }

  /** A caller of wait is not among the sleepers or the semaphore waiters. */
  lemma WaitCallersApart(s: Proc, sw: multiset<Block>, q: Block)
    requires Waiters(s, sw) && q in s.waiting && s.pcbs[q].syscallNum == CALL_WAIT
    ensures q !in Pcbs(s.timers) && q !in sw
    ensures multiset(Pcbs(s.timers)) + sw <= multiset(Remove(s.waiting, q))
  {
    RemoveBag(s.waiting, q);
    InBag(Pcbs(s.timers), q);
    var rest := multiset(Remove(s.waiting, q));
    forall p: Block
      ensures (multiset(Pcbs(s.timers)) + sw)[p] <= rest[p]
    {
      assert multiset(s.waiting)[p] == rest[p] + multiset{q}[p];
      assert (multiset(Pcbs(s.timers)) + sw)[p] <= multiset(s.waiting)[p];
    }
  }

  /** One more pid exits: that of r, which is no live process any more. */
  lemma OneMoreExitPid(s: Proc, t: Proc, r: Block, record: ExitRecord)
    requires ExitPids(s) && Pids(s) && r !in s.freePcbs && r !in s.zombies
    requires t.exited == s.exited + [record] && record.pid == s.pcbs[r].pid && t.lastPid == s.lastPid
    requires forall p: Block :: p !in t.freePcbs && p !in t.zombies ==> p != r && p !in s.freePcbs && p !in s.zombies
    requires forall p: Block :: t.pcbs[p].pid == s.pcbs[p].pid
    ensures ExitPids(t)
  {
    forall p: Block, x | p !in t.freePcbs && p !in t.zombies && x in t.exited
      ensures t.pcbs[p].pid != x.pid
    {
      assert p != r && p !in s.freePcbs;
    }
  }

  lemma HandOffKeepsExits(s: Proc, t: Proc, r: Block, record: ExitRecord)
    requires ExitsAccounted(s) && Pids(s) && r !in s.freePcbs && r !in s.zombies
    requires t.exited == s.exited + [record] && t.delivered == s.delivered + [record] && record.pid == s.pcbs[r].pid
    requires t.zombies == s.zombies && t.freePcbs == [r] + s.freePcbs && t.lastPid == s.lastPid
    requires forall p: Block :: p != r ==> SameIdentity(s.pcbs[p], t.pcbs[p])
    requires t.pcbs[r].pid == s.pcbs[r].pid && t.pcbs[r].parent == s.pcbs[r].parent
    ensures ExitsAccounted(t)
  {
    hide ExitPids;
    assert Records(t, t.zombies) == Records(s, s.zombies);
    assert multiset(t.exited) == multiset(s.exited) + multiset{record};
    assert multiset(t.delivered) == multiset(s.delivered) + multiset{record};
    OneMoreExitPid(s, t, r, record);
  }

  lemma HandOffStatuses(s: Proc, t: Proc, q: Block, r: Block)
    requires Statuses(s) && Placed(s) && s.running == Ref(r)
    requires t.running == Ref(q) && t.ready == s.ready && t.zombies == s.zombies && q in s.waiting
    requires t.pcbs[q].status == Running && t.pcbs[q].timer == Null && t.pcbs[r].timer == Null
    requires forall p: Block :: p !in {q, r} ==> t.pcbs[p] == s.pcbs[p]
    ensures Statuses(t)
  {
    PlacesApart(s);
    hide Placed;
  }

  lemma TimersSame(s: Proc, t: Proc)
    requires TimersOk(s) && t.timers == s.timers && t.freeTimers == s.freeTimers
    ensures TimersOk(t)
  {
    assert TimerBag(t) == TimerBag(s);
  }

  lemma HandOffKeepsInv(s: Proc, sw: multiset<Block>)
    requires Inv(s, sw) && CanExit(s) && s.children[s.running.p] == []
    requires AwaitedBy(s, s.running.p, s.pcbs[s.running.p].parent.p)
    ensures Inv(Exit(s), sw)
  {
    hide Placed, Kin, Waiters, Pids, ExitsAccounted, NoLostWakeup, Exit;
    var t, r, q := Exit(s), s.running.p, s.pcbs[s.running.p].parent.p;
    HandOffEffect(s, sw);
    DyingFacts(s, sw);
    PlacesApart(s);
    WithoutDuplicates(s);
    HandOffKeepsPlaces(s, t, q);
    WaitCallersApart(s, sw, q);
    LeaveWaiters(s, t, sw, sw, q);
    HandOffStatuses(s, t, q, r);
    hide Statuses, TimersOk;
    TimersSame(s, t);
    HandOffKeepsExits(s, t, r, ExitRecord(s.pcbs[r].pid, s.pcbs[r].arg0, s.pcbs[q].pid));
    RemoveBag(s.children[q], r);
    BurialKeepsKin(s, t, q, Remove(s.children[q], r), r);
    BurialKeepsPids(s, t, r);
    HandOffKeepsWakeups(s, t, q, r);
  }

  lemma HandOffKeepsWakeups(s: Proc, t: Proc, q: Block, r: Block)
    requires Placed(s) && NoLostWakeup(s) && q in s.waiting
    requires t.waiting == Remove(s.waiting, q) && t.zombies == s.zombies && r !in s.zombies && r !in s.waiting
    requires t.children == s.children[q := Remove(s.children[q], r)]
    requires forall p: Block :: p !in {q, r} ==> t.pcbs[p] == s.pcbs[p]
    requires forall p: Block :: t.pcbs[p].pid == s.pcbs[p].pid
    ensures NoLostWakeup(t)
  {
    WithoutDuplicates(s);
    RemovedIsGone(s.waiting, q);
    forall p, c | p in t.waiting && c in t.children[p] && c in t.zombies
      ensures !AwaitedBy(t, c, p)
    {
      assert p != q && !AwaitedBy(s, c, p);
    }
  }

  // ---- exit to a parent that does not wait

  lemma ExitToZombieEffect(s: Proc, sw: multiset<Block>)
    requires Inv(s, sw) && CanExit(s) && s.children[s.running.p] == []
    requires !AwaitedBy(s, s.running.p, s.pcbs[s.running.p].parent.p)
    ensures var r, q, t := s.running.p, s.pcbs[s.running.p].parent.p, Exit(s);
            && s.ready != []
            && t == s.(running := Ref(s.ready[0]), ready := s.ready[1..], zombies := s.zombies + [r], pcbs := t.pcbs,
                       exited := s.exited + [ExitRecord(s.pcbs[r].pid, s.pcbs[r].arg0, s.pcbs[q].pid)])
            && (forall p: Block :: p !in {r, q, s.ready[0]} ==> t.pcbs[p] == s.pcbs[p])
            && (forall p: Block :: p !in {r, s.ready[0]} ==>
                  t.pcbs[p] == s.pcbs[p].(signals := t.pcbs[p].signals))
            && t.pcbs[r].status == Zombie && t.pcbs[r].returnValue == s.pcbs[r].arg0
            && GotSignal(s.pcbs[q], t.pcbs[q], SIGCHLD)
            && t.pcbs[s.ready[0]].status == Running && t.pcbs[r].timer == Null && t.pcbs[s.ready[0]].timer == Null
            && (forall p: Block :: t.pcbs[p].pid == s.pcbs[p].pid && t.pcbs[p].parent == s.pcbs[p].parent)
            && (forall p: Block :: p != r ==> t.pcbs[p].returnValue == s.pcbs[p].returnValue)
  {
    hide Signalled, GotSignal, Placed, Kin, TimersOk, Pids, ExitsAccounted, NoLostWakeup, Waiters, Reparent;
    DyingFacts(s, sw);
    PlacesApart(s);
    ParentSignalled(s, sw);
  }

  lemma ZombieKeepsExits(s: Proc, t: Proc, r: Block)
    requires ExitsAccounted(s) && Pids(s) && r !in s.freePcbs && r !in s.zombies
    requires t.exited == s.exited + [Record(t, r)] && t.delivered == s.delivered
    requires t.zombies == s.zombies + [r] && t.freePcbs == s.freePcbs && t.lastPid == s.lastPid
    requires forall p: Block :: p != r ==> SameIdentity(s.pcbs[p], t.pcbs[p])
    requires t.pcbs[r].pid == s.pcbs[r].pid && t.pcbs[r].parent == s.pcbs[r].parent
    ensures ExitsAccounted(t)
  {
    hide ExitPids;
    assert Records(t, t.zombies) == Records(s, s.zombies) + [Record(t, r)];
    assert multiset(t.exited) == multiset(s.exited) + multiset{Record(t, r)};
    OneMoreExitPid(s, t, r, Record(t, r));
  }

  lemma ExitToZombieKeepsPlaces(s: Proc, t: Proc)
    requires Placed(s) && s.running.Ref? && s.ready != []
    requires t.running == Ref(s.ready[0]) && t.ready == s.ready[1..] && t.waiting == s.waiting
    requires t.zombies == s.zombies + [s.running.p] && t.freePcbs == s.freePcbs
    ensures Placed(t)
  {
    PopFront(s.ready);
    assert PlaceBag(t) == PlaceBag(s);
  }

  /** One more zombie, whose parent does not wait for it. */
  lemma ZombieWakeups(s: Proc, t: Proc, r: Block, q: Block)
    requires NoLostWakeup(s) && t.waiting == s.waiting && t.children == s.children && t.zombies == s.zombies + [r]
    requires forall p :: p in s.waiting ==> t.pcbs[p] == s.pcbs[p].(signals := t.pcbs[p].signals)
    requires forall p: Block :: t.pcbs[p].pid == s.pcbs[p].pid
    requires (forall p: Block :: r in s.children[p] ==> p == q) && !AwaitedBy(s, r, q)
    ensures NoLostWakeup(t)
  {
    forall p, c | p in t.waiting && c in t.children[p] && c in t.zombies
      ensures !AwaitedBy(t, c, p)
    {
      assert !AwaitedBy(s, c, p);
    }
  }

  lemma ExitToZombieKeepsWakeups(s: Proc, sw: multiset<Block>)
    requires Inv(s, sw) && CanExit(s) && s.children[s.running.p] == []
    requires !AwaitedBy(s, s.running.p, s.pcbs[s.running.p].parent.p)
    ensures NoLostWakeup(Exit(s))
  {
    var r := s.running.p;
    ExitToZombieEffect(s, sw);
    PlacesApart(s);
    forall p: Block | r in s.children[p]
      ensures p == s.pcbs[r].parent.p
    {
      ChildInUse(s, p, r);
    }
    hide Exit, Placed, Kin, TimersOk, Pids, ExitsAccounted, NoLostWakeup, Waiters, Statuses, AwaitedBy;
    ZombieWakeups(s, Exit(s), r, s.pcbs[r].parent.p);
  }

  lemma ExitToZombieKeepsKin(s: Proc, t: Proc, r: Block)
    requires Kin(s) && r != s.init && s.children[r] == []
    requires t.children == s.children && t.freePcbs == s.freePcbs && t.init == s.init
    requires t.zombies == s.zombies + [r]
    requires forall p: Block :: t.pcbs[p].parent == s.pcbs[p].parent
    ensures Kin(t)
  {
    assert KinBag(t) == KinBag(s);
    assert forall p: Block, c :: c in t.children[p] ==> c in s.children[p];
  }

  /** Signals do not tell how a process waits. */
  lemma SignalsKeepWaiters(s: Proc, t: Proc, sw: multiset<Block>)
    requires Waiters(s, sw) && t.waiting == s.waiting && t.timers == s.timers
    requires forall p :: p in s.waiting ==> t.pcbs[p] == s.pcbs[p].(signals := t.pcbs[p].signals)
    ensures Waiters(t, sw)
  {
    forall p | p in t.waiting
      ensures WaitsFor(t.pcbs[p], p in Pcbs(t.timers), p in sw)
    {
      assert WaitsFor(s.pcbs[p], p in Pcbs(s.timers), p in sw);
    }
  }

  /** One process becomes a zombie, and the first ready one runs. */
  lemma ZombieStatuses(s: Proc, t: Proc, r: Block)
    requires Statuses(s) && Placed(s) && s.running == Ref(r) && s.ready != []
    requires t.running == Ref(s.ready[0]) && t.ready == s.ready[1..] && t.zombies == s.zombies + [r]
    requires t.pcbs[r].status == Zombie && t.pcbs[s.ready[0]].status == Running
    requires forall p: Block :: p !in {r, s.ready[0]} ==> t.pcbs[p] == s.pcbs[p].(signals := t.pcbs[p].signals)
    requires t.pcbs[r].timer == Null && t.pcbs[s.ready[0]].timer == Null
    ensures Statuses(t)
  {
    PlacesApart(s);
    WithoutDuplicates(s);
    hide Placed;
  }

  lemma ExitToZombieKeepsStatuses(s: Proc, sw: multiset<Block>)
    requires Inv(s, sw) && CanExit(s) && s.children[s.running.p] == []
    requires !AwaitedBy(s, s.running.p, s.pcbs[s.running.p].parent.p)
    ensures Waiters(Exit(s), sw) && Statuses(Exit(s))
  {
    ExitToZombieEffect(s, sw);
    PlacesApart(s);
    hide Exit, Placed, Kin, TimersOk, Pids, ExitsAccounted, NoLostWakeup, Waiters, Statuses;
    SignalsKeepWaiters(s, Exit(s), sw);
    ZombieStatuses(s, Exit(s), s.running.p);
  }

  lemma ExitToZombieKeepsInv(s: Proc, sw: multiset<Block>)
    requires Inv(s, sw) && CanExit(s) && s.children[s.running.p] == []
    requires !AwaitedBy(s, s.running.p, s.pcbs[s.running.p].parent.p)
    ensures Inv(Exit(s), sw)
  {
    var t, r := Exit(s), s.running.p;
    ExitToZombieEffect(s, sw);
    ExitToZombieKeepsStatuses(s, sw);
    ExitToZombieKeepsWakeups(s, sw);
    DyingFacts(s, sw);
    PlacesApart(s);
    ExitToZombieKeepsPlaces(s, t);
    ExitToZombieKeepsKin(s, t, r);
    ZombieKeepsExits(s, t, r);
  }

  lemma ExitKeepsInv(s: Proc, sw: multiset<Block>)
    requires Inv(s, sw) && CanExit(s) && s.children[s.running.p] == []
    ensures Inv(Exit(s), sw)
  {
    if AwaitedBy(s, s.running.p, s.pcbs[s.running.p].parent.p) {
      HandOffKeepsInv(s, sw);
    } else {
      ExitToZombieKeepsInv(s, sw);
    }
  }
}
