/** Resource descriptors that are in no PCB's list any more: when they arise, and that they stay. */
module ResourceOrphans {
  import opened Bags
  import opened Timers
  import opened Processes
  import opened Resources
  import opened ResourceLaws
  import opened ResourceRuns

  /** A descriptor of resource r that is in no PCB's list any more. */
  ghost predicate Orphan(s: Registry, r: Block, x: Block) {
    x in s.ptrsOf[r] && x !in s.owned[s.descs[x].owner]
  }

  /** t is s with some descriptors of p removed, x among them or not. */
  ghost predicate Shrunk(s: Registry, t: Registry, p: Block, r: Block, x: Block) {
    && t.descs == s.descs
    && (x in t.ptrsOf[r] ==> x in s.ptrsOf[r]) && (forall q: Block :: x in t.owned[q] ==> x in s.owned[q])
    && (x in s.ptrsOf[r] && x !in t.ptrsOf[r] ==> x in s.owned[p])
    && (forall q: Block :: x in s.owned[q] && x !in t.owned[q] ==> q == p && x !in t.ptrsOf[r])
  }

  lemma DetachShrinks(s: Registry, p: Block, d: Block, r: Block, x: Block)
    requires RegInv(s) && d in s.owned[p]
    ensures Shrunk(s, Detach(s, p, d), p, r, x)
  {
    PtrsApart(s, s.descs[d].resource);
    RemovedIsGone<Block>(s.owned[p], d);
    RemovedIsGone<Block>(s.ptrsOf[s.descs[d].resource], d);
    assert forall q: Block :: d in s.ptrsOf[q] ==> q == s.descs[d].resource;
  }

  lemma {:induction false} ReleaseShrinks(s: Registry, p: Block, r: Block, x: Block)
    requires RegInv(s)
    ensures Shrunk(s, ReleaseAll(s, p), p, r, x)
    decreases |s.owned[p]|
  {
    hide RegInv;
    if s.owned[p] != [] {
      var d := s.owned[p][0];
      DetachShrinks(s, p, d, r, x);
      DetachKeeps(s, p, d);
      assert Remove(s.owned[p], d) == s.owned[p][1..];
      hide Detach;
      ReleaseShrinks(Detach(s, p, d), p, r, x);
    }
  }

  lemma CloseShrinks(s: Registry, p: Block, fd: int, r: Block, x: Block)
    requires RegInv(s)
    ensures Shrunk(s, Close(s, p, fd).0, p, r, x)
  {
    hide RegInv, Detach;
    ByFdFinds(s, s.owned[p], fd);
    if ByFd(s, s.owned[p], fd).Ref? {
      DetachShrinks(s, p, ByFd(s, s.owned[p], fd).p, r, x);
    }
  }

  /** t is s, but that p may have a new descriptor x of resource r. */
  ghost predicate Grown(s: Registry, t: Registry, p: Block, r: Block, x: Block) {
    && (x in s.ptrsOf[r] ==> x in t.ptrsOf[r] && t.descs[x] == s.descs[x])
    && (x in t.ptrsOf[r] && x !in s.ptrsOf[r] ==> t.descs[x].owner == p && x in t.owned[p])
    && (x in s.ptrsOf[r] ==> forall q: Block :: x in t.owned[q] <==> x in s.owned[q])
  }

  lemma OpenGrows(s: Registry, p: Block, id: int, kind: int, mode: int, r: Block, x: Block)
    requires RegInv(s) && CanCreate(s, id, mode)
    ensures s.freeDescs == s.freePtrs
    ensures Grown(s, Open(s, p, id, kind, mode).0, p, r, x)
  {
    PoolsInStep(s);
    PtrsApart(s, r);
    NewOnesEmpty(s);
    hide RegInv, ById;
  }

  lemma NewOnesEmpty(s: Registry)
    requires RegInv(s)
    ensures s.freeRes != [] ==> s.ptrsOf[s.freeRes[0]] == []
  {
    if s.freeRes != [] {
      FreeUnlisted(s);
    }
  }

  /** When a descriptor of r is orphaned: exactly by starting a process in the PCB of its owner; and once orphaned it
      stays so, whatever the step. */
  lemma OrphanIff(s: Registry, step: RegStep, r: Block, x: Block)
    requires RegInv(s) && Permitted(s, step)
    ensures Orphan(After(s, step), r, x) <==>
              Orphan(s, r, x) || (x in s.ptrsOf[r] && step.NewProcessStep? && x in s.owned[step.p])
  {
    hide RegInv, Open, Close, ReleaseAll;
    OwnedByOwner(s);
    match step
    case OpenStep(p, id, kind, mode) => OpenGrows(s, p, id, kind, mode, r, x);
    case CloseStep(p, fd) => CloseShrinks(s, p, fd, r, x);
    case DestroyStep(id) =>
    case ReleaseStep(p) => ReleaseShrinks(s, p, r, x);
    case NewProcessStep(p) =>
  }

  lemma OwnedByOwner(s: Registry)
    requires RegInv(s)
    ensures forall p: Block, d :: d in s.owned[p] ==> s.descs[d].owner == p
  {
  }

  /** Only an open makes a descriptor, of its caller; only a close or a release takes one away, of the process it is
      for; who owns the others does not change. */
  lemma StepDescs(s: Registry, step: RegStep, r: Block, x: Block)
    requires RegInv(s) && Permitted(s, step)
    ensures var t := After(s, step);
            && (x in s.ptrsOf[r] && x in t.ptrsOf[r] ==> t.descs[x] == s.descs[x])
            && (x !in s.ptrsOf[r] && x in t.ptrsOf[r] ==> step.OpenStep? && t.descs[x].owner == step.p)
            && (x in s.ptrsOf[r] && x !in t.ptrsOf[r] ==>
                  (step.CloseStep? || step.ReleaseStep?) && x in s.owned[step.p])
            && (step.ReleaseStep? && x in s.owned[step.p] ==> x !in t.ptrsOf[r])
  {
    hide RegInv, Open, Close, ReleaseAll;
    match step
    case OpenStep(p, id, kind, mode) => OpenGrows(s, p, id, kind, mode, r, x);
    case CloseStep(p, fd) => CloseShrinks(s, p, fd, r, x);
    case DestroyStep(id) =>
    case ReleaseStep(p) =>
      ReleaseShrinks(s, p, r, x);
      ReleaseRemovesOwn(s, p);
    case NewProcessStep(p) =>
  }

  /** An orphaned descriptor stays for good, and its resource can never be destroyed. */
  lemma {:induction false} OrphanForever(s: Registry, steps: seq<RegStep>, r: Block, x: Block)
    requires RegInv(s) && Legal(s, steps) && Orphan(s, r, x)
    ensures Orphan(Run(s, steps), r, x) && r in Run(s, steps).resList
    decreases |steps|
  {
    if steps != [] {
      hide RegInv, Orphan, After;
      OrphanIff(s, steps[0], r, x);
      OrphanForever(After(s, steps[0]), steps[1..], r, x);
    }
  }
}
