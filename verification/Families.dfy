/** Birth of processes, and what becomes of the children of a process that exits. */
module Families {
  import opened Bags
  import opened Timers
  import opened Processes
  import opened ProcessLaws
  import opened ProcessSteps
  import opened ProcessExits

  // ---- spawn

  lemma SpawnKeepsPlaces(s: Proc)
    requires Placed(s) && CanSpawn(s)
    ensures Placed(Spawn(s))
  {
    PopFront(s.freePcbs);
    assert PlaceBag(Spawn(s)) == PlaceBag(s);
  }

  /** The first free block is nowhere else. */
  lemma NewbornFacts(s: Proc, sw: multiset<Block>)
    requires Inv(s, sw) && CanSpawn(s)
    ensures var c := s.freePcbs[0];
            && c !in s.freePcbs[1..] && Ref(c) != s.running && c != s.init && s.children[c] == []
            && c !in s.ready && c !in s.waiting && c !in s.zombies
            && forall p: Block, d :: d in s.children[p] ==> d != c
    ensures s.running.p !in s.freePcbs
  {
    var c := s.freePcbs[0];
    PlacesApart(s);
    WithoutDuplicates(s);
    assert c in s.freePcbs;
    assert multiset(s.freePcbs)[c] >= 1;
    assert KinBag(s)[c] == 1;
    forall p: Block, d | d in s.children[p]
      ensures d != c
    {
      ChildInUse(s, p, d);
    }
  }

  lemma SpawnKeepsKin(s: Proc, sw: multiset<Block>)
    requires Inv(s, sw) && CanSpawn(s)
    ensures Kin(Spawn(s))
  {
    var t, r, c := Spawn(s), s.running.p, s.freePcbs[0];
    NewbornFacts(s, sw);
    PlacesApart(s);
    SpawnKeepsKinBag(s);
    forall p: Block, d | d in t.children[p]
      ensures t.pcbs[d].parent == Ref(p)
    {
      assert d in s.children[p] || (p == r && d == c);
    }
  }

  lemma SpawnKeepsKinBag(s: Proc)
    requires CanSpawn(s) && s.children[s.freePcbs[0]] == [] && s.freePcbs[0] != s.running.p
    ensures KinBag(Spawn(s)) == KinBag(s)
  {
    PopFront(s.freePcbs);
    assert s.children[s.freePcbs[0] := []] == s.children;
    SumGains(s.children, s.running.p, s.freePcbs[0]);
  }

  lemma SpawnKeepsRecords(s: Proc, sw: multiset<Block>)
    requires Inv(s, sw) && CanSpawn(s)
    ensures Records(Spawn(s), s.zombies) == Records(s, s.zombies)
  {
    NewbornFacts(s, sw);
    forall z | z in s.zombies
      ensures Record(Spawn(s), z) == Record(s, z)
    {
      PlacesApart(s);
      HasParent(s, z);
      assert s.children[s.pcbs[z].parent.p] != [];
    }
  }

  /** A new pid, beyond all those given out. */
  lemma NewbornPids(s: Proc, t: Proc, c: Block)
    requires Pids(s) && ExitPids(s) && t.exited == s.exited && t.zombies == s.zombies
    requires t.lastPid == s.lastPid + 1 && t.pcbs[c].pid == s.lastPid
    requires forall p: Block :: p != c ==> t.pcbs[p].pid == s.pcbs[p].pid
    requires forall p: Block :: p !in t.freePcbs ==> p == c || p !in s.freePcbs
    ensures Pids(t) && ExitPids(t)
  {
  }

  lemma SpawnKeepsPids(s: Proc, sw: multiset<Block>)
    requires Inv(s, sw) && CanSpawn(s)
    ensures Pids(Spawn(s)) && ExitsAccounted(Spawn(s))
  {
    var t, c := Spawn(s), s.freePcbs[0];
    SpawnKeepsRecords(s, sw);
    NewbornFacts(s, sw);
    hide Waiters, Statuses, Placed, Kin, NoLostWakeup, TimersOk, Pids, ExitPids, Records;
    assert forall p: Block :: p !in t.freePcbs ==> p == c || p !in s.freePcbs;
    NewbornPids(s, t, c);
  }

  /** A process that is nowhere yet joins the ready list and the children of another. */
  lemma NewbornStatuses(s: Proc, t: Proc, c: Block)
    requires Statuses(s) && c !in s.zombies && c !in s.ready && s.running != Ref(c) && s.running.Ref?
    requires t.running == s.running && t.ready == s.ready + [c] && t.zombies == s.zombies
    requires t.pcbs[c].status == Ready && t.pcbs[c].timer == Null
    requires forall p: Block :: p != c ==> t.pcbs[p] == s.pcbs[p].(retvalue := t.pcbs[p].retvalue)
    ensures Statuses(t)
  {
  }

  lemma NewbornWaiters(s: Proc, t: Proc, c: Block, sw: multiset<Block>)
    requires Waiters(s, sw) && NoLostWakeup(s) && c !in s.waiting && c !in s.zombies
    requires t.waiting == s.waiting && t.timers == s.timers && t.zombies == s.zombies
    requires forall p: Block :: p != c ==> t.pcbs[p] == s.pcbs[p].(retvalue := t.pcbs[p].retvalue)
    requires forall p: Block, d :: d in t.children[p] && d != c ==> d in s.children[p]
    ensures Waiters(t, sw) && NoLostWakeup(t)
  {
    forall p, d | p in t.waiting && d in t.children[p] && d in t.zombies
      ensures !AwaitedBy(t, d, p)
    {
      assert !AwaitedBy(s, d, p);
    }
    forall p | p in t.waiting
      ensures WaitsFor(t.pcbs[p], p in Pcbs(t.timers), p in sw)
    {
      assert WaitsFor(s.pcbs[p], p in Pcbs(s.timers), p in sw);
    }
  }

  lemma SpawnKeepsWaiters(s: Proc, sw: multiset<Block>)
    requires Inv(s, sw) && CanSpawn(s)
    ensures Waiters(Spawn(s), sw) && Statuses(Spawn(s)) && NoLostWakeup(Spawn(s))
  {
    NewbornFacts(s, sw);
    PlacesApart(s);
    hide Placed, Kin, TimersOk, Pids, ExitsAccounted, NoLostWakeup, Waiters, Statuses;
    NewbornWaiters(s, Spawn(s), s.freePcbs[0], sw);
    NewbornStatuses(s, Spawn(s), s.freePcbs[0]);
  }

  lemma SpawnKeepsInv(s: Proc, sw: multiset<Block>)
    requires Inv(s, sw) && CanSpawn(s)
    ensures Inv(Spawn(s), sw)
  {
    SpawnKeepsPlaces(s);
    SpawnKeepsKin(s, sw);
    SpawnKeepsPids(s, sw);
    SpawnKeepsWaiters(s, sw);
  }

  /** A spawned process is the last child of its creator, last in the ready list, and has a pid nobody
      in use has; the creator gets that pid. */
  lemma SpawnResult(s: Proc, sw: multiset<Block>)
    requires Inv(s, sw) && CanSpawn(s)
    ensures var t, r, c := Spawn(s), s.running.p, s.freePcbs[0];
            && t.pcbs[r].retvalue == t.pcbs[c].pid && t.pcbs[c].parent == Ref(r)
            && t.children[r] == s.children[r] + [c] && t.children[c] == [] && t.ready == s.ready + [c]
            && forall p: Block :: p !in s.freePcbs ==> t.pcbs[p].pid == s.pcbs[p].pid != t.pcbs[c].pid
  {
    NewbornFacts(s, sw);
  }

  // ---- exit with children

  lemma {:induction false} ReparentMovesLists(s: Proc)
    requires s.running.Ref? && s.running.p != s.init
    ensures var r, t := s.running.p, Reparent(s);
            t.children == s.children[r := []][s.init := s.children[s.init] + s.children[r]]
    decreases |s.children[s.running.p]|
  {
    var r := s.running.p;
    if s.children[r] != [] {
      var c, rest := s.children[r][0], s.children[r][1..];
      ReparentMovesLists(ReparentFirst(s));
      assert s.children[s.init] + [c] + rest == s.children[s.init] + s.children[r];
    } else {
      assert s.children[s.init] + [] == s.children[s.init];
    }
  }

  lemma {:induction false} ReparentSignals(s: Proc, p: Block)
    requires s.running.Ref? && s.running.p != s.init
    requires NoDuplicates(s.children[s.running.p])
    ensures Reparent(s).pcbs[p] == if p in s.children[s.running.p] then Signalled(s.pcbs[p], SIGHUP) else s.pcbs[p]
    decreases |s.children[s.running.p]|
  {
    var r := s.running.p;
    if s.children[r] != [] {
      assert s.children[r] == [s.children[r][0]] + s.children[r][1..];
      ReparentSignals(ReparentFirst(s), p);
    }
  }

  /** The children of a dying process join init's children, in order, and SIGHUP becomes pending for each that does not
      mask it; nothing else changes, in particular not their other signals and not their parent field. */
  lemma ReparentMovesAll(s: Proc, sw: multiset<Block>)
    requires Inv(s, sw) && s.running.Ref? && s.running.p != s.init
    ensures var r, t := s.running.p, Reparent(s);
            && t.children == s.children[r := []][s.init := s.children[s.init] + s.children[r]]
            && (forall c :: c in s.children[r] ==> GotSignal(s.pcbs[c], t.pcbs[c], SIGHUP))
            && (forall p: Block :: t.pcbs[p] == if p in s.children[r] then s.pcbs[p].(signals := t.pcbs[p].signals)
                                                 else s.pcbs[p])
            && t == s.(children := t.children, pcbs := t.pcbs)
  {
    ChildrenDistinct(s, s.running.p);
    ReparentMovesLists(s);
    hide Reparent, Inv, Signalled;
    var t, cs := Reparent(s), s.children[s.running.p];
    forall p: Block
      ensures p in cs ==> GotSignal(s.pcbs[p], t.pcbs[p], SIGHUP)
      ensures p in cs ==> t.pcbs[p] == s.pcbs[p].(signals := t.pcbs[p].signals)
      ensures p !in cs ==> t.pcbs[p] == s.pcbs[p]
    {
      ReparentSignals(s, p);
      SignalledGets(s.pcbs[p], SIGHUP);
    }
  }

  ghost predicate ParentLinks(s: Proc) {
    forall p: Block, c :: c in s.children[p] ==> s.pcbs[c].parent == Ref(p)
  }

  lemma KinHasParentLinks(s: Proc)
    requires Kin(s)
    ensures ParentLinks(s)
  {
  }

  /** Exit keeps the children lists and the parent fields in agreement exactly when the process has no
      children: reparenting moves them between the lists but leaves the fields as they are. */
  lemma ExitKeepsParentLinksIff(s: Proc, sw: multiset<Block>)
    requires Inv(s, sw) && CanExit(s)
    ensures ParentLinks(Exit(s)) <==> s.children[s.running.p] == []
  {
    hide Exit;
    hide Inv;
    if s.children[s.running.p] == [] {
      ExitKeepsInv(s, sw);
      InvHasParentLinks(Exit(s), sw);
    } else {
      OrphanKeepsOldParent(s, sw);
    }
  }

  lemma InvHasParentLinks(s: Proc, sw: multiset<Block>)
    requires Inv(s, sw)
    ensures ParentLinks(s)
  {
    KinHasParentLinks(s);
  }

  lemma ChildrenDistinct(s: Proc, p: Block)
    requires Kin(s)
    ensures NoDuplicates(s.children[p])
  {
    forall c | c in s.children[p]
      ensures multiset(s.children[p])[c] <= 1
    {
      ChildInUse(s, p, c);
    }
    BagNoDuplicates(s.children[p]);
  }

  /** What follows the reparenting. */
  function AfterReparenting(s: Proc): Proc
    requires s.running.Ref? && s.pcbs[s.running.p].parent.Ref?
    requires s.ready != [] || AwaitedBy(Die(s), s.running.p, s.pcbs[s.running.p].parent.p)
  {
    var d := Die(s);
    if AwaitedBy(d, s.running.p, s.pcbs[s.running.p].parent.p) then HandOff(d) else RunNext(d)
  }

  /** Dying takes no one but the dead process itself, by its pid, off a children list. */
  lemma DeathKeepsOthers(s: Proc, i: Block, c: Block)
    requires s.running.Ref? && s.pcbs[s.running.p].parent.Ref?
    requires s.ready != [] || AwaitedBy(Die(s), s.running.p, s.pcbs[s.running.p].parent.p)
    requires c in s.children[i]
    requires s.pcbs[c].pid != s.pcbs[s.running.p].pid || s.pcbs[s.running.p].parent == s.running
    ensures c in AfterReparenting(s).children[i] && AfterReparenting(s).pcbs[c].parent == s.pcbs[c].parent
  {
    var r, q, d := s.running.p, s.pcbs[s.running.p].parent.p, Die(s);
    DieFacts(s);
    if AwaitedBy(d, r, q) {
      HandOffKeepsOthers(d, i, c);
    }
  }

  lemma DieFacts(s: Proc)
    requires s.running.Ref? && s.pcbs[s.running.p].parent.Ref?
    ensures Die(s).children == s.children && Die(s).running == s.running && Die(s).ready == s.ready
    ensures forall p: Block :: Die(s).pcbs[p].pid == s.pcbs[p].pid && Die(s).pcbs[p].parent == s.pcbs[p].parent
    ensures s.pcbs[s.running.p].parent == s.running ==> Die(s).pcbs[s.running.p].status == Zombie
  {
  }

  lemma HandOffKeepsOthers(d: Proc, i: Block, c: Block)
    requires d.running.Ref? && d.pcbs[d.running.p].parent.Ref? && c in d.children[i]
    requires d.pcbs[c].pid != d.pcbs[d.running.p].pid
    ensures c in HandOff(d).children[i] && HandOff(d).pcbs[c].parent == d.pcbs[c].parent
  {
    KeptByRemovePid(d, d.children[i], d.pcbs[d.running.p].pid, c);
  }

  /** After the exit of a process with children, its first child is on init's list with the dead process
      as its parent. */
  lemma OrphanKeepsOldParent(s: Proc, sw: multiset<Block>)
    requires Inv(s, sw) && CanExit(s) && s.children[s.running.p] != []
    ensures var c, t := s.children[s.running.p][0], Exit(s);
            c in t.children[s.init] && t.pcbs[c].parent == Ref(s.running.p) != Ref(s.init)
  {
    var r, c := s.running.p, s.children[s.running.p][0];
    hide Exit;
    ReparentMovesLists(s);
    PlacesApart(s);
    ChildInUse(s, r, c);
    HasParent(s, r);
    var u := Reparent(s);
    ExitAfterReparenting(s);
    DeathKeepsOthers(u, s.init, c);
  }

  lemma ExitAfterReparenting(s: Proc)
    requires CanExit(s)
    ensures var u := Reparent(s);
            && u.running == s.running && u.pcbs[s.running.p].parent == s.pcbs[s.running.p].parent
            && (u.ready != [] || AwaitedBy(Die(u), s.running.p, s.pcbs[s.running.p].parent.p))
            && Exit(s) == AfterReparenting(u)
  {
    hide Reparent, HandOff, RunNext, AddSignal, Die, AwaitedBy;
    if s.ready == [] {
      StillAwaited(s, Reparent(s));
    }
  }

  /** Neither signals nor the death itself change what the parent waits for. */
  lemma StillAwaited(s: Proc, u: Proc)
    requires s.running.Ref? && s.pcbs[s.running.p].parent.Ref? && s.pcbs[s.running.p].parent != s.running
    requires AwaitedBy(s, s.running.p, s.pcbs[s.running.p].parent.p) && u.running == s.running
    requires forall p: Block :: u.pcbs[p] == s.pcbs[p].(signals := u.pcbs[p].signals)
    ensures AwaitedBy(Die(u), s.running.p, s.pcbs[s.running.p].parent.p)
  {
  }

  lemma {:induction false} KeptByRemovePid(s: Proc, children: seq<Block>, pid: int, c: Block)
    requires c in children && s.pcbs[c].pid != pid
    ensures c in RemovePid(s, children, pid)
  {
    if c != children[0] {
      assert c in children[1..];
      if s.pcbs[children[0]].pid != pid {
        KeptByRemovePid(s, children[1..], pid, c);
      }
    }
  }
}
