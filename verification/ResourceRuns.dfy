/** Runs of resource calls: the one-to-one correspondence of descriptors, what fds mean, and what each call promises. */
module ResourceRuns {
  import opened Bags
  import opened Timers
  import opened Processes
  import opened Resources
  import opened ResourceLaws

  datatype RegStep =
    | OpenStep(p: Block, id: int, kind: int, mode: int)
    | CloseStep(p: Block, fd: int)
    | DestroyStep(id: int)
    | ReleaseStep(p: Block)
    | NewProcessStep(p: Block)

  /** All an open needs of its caller: a free resource block when it creates one. */
  predicate Permitted(s: Registry, step: RegStep) {
    step.OpenStep? ==> CanCreate(s, step.id, step.mode)
  }

  ghost function After(s: Registry, step: RegStep): (t: Registry)
    requires RegInv(s) && Permitted(s, step)
    ensures RegInv(t)
  {
    match step
    case OpenStep(p, id, kind, mode) => OpenKeeps(s, p, id, kind, mode); Open(s, p, id, kind, mode).0
    case CloseStep(p, fd) => CloseKeeps(s, p, fd); Close(s, p, fd).0
    case DestroyStep(id) => DestroyKeeps(s, id); Destroy(s, id).0
    case ReleaseStep(p) => ReleaseAllKeeps(s, p); ReleaseAll(s, p)
    case NewProcessStep(p) => NewProcessKeeps(s, p); NewProcess(s, p)
  }

  ghost predicate Legal(s: Registry, steps: seq<RegStep>)
    requires RegInv(s)
    decreases |steps|
  {
    steps == [] || (Permitted(s, steps[0]) && Legal(After(s, steps[0]), steps[1..]))
  }

  ghost function Run(s: Registry, steps: seq<RegStep>): (t: Registry)
    requires RegInv(s) && Legal(s, steps)
    ensures RegInv(t)
    decreases |steps|
  {
    if steps == [] then s else Run(After(s, steps[0]), steps[1..])
  }

  /** One run after another. */
  lemma {:induction false} RunConcat(s: Registry, a: seq<RegStep>, b: seq<RegStep>)
    requires RegInv(s) && Legal(s, a) && Legal(Run(s, a), b)
    ensures Legal(s, a + b) && Run(s, a + b) == Run(Run(s, a), b)
    decreases |a|
  {
    hide RegInv, After, Permitted;
    if a == [] {
      assert a + b == b;
    } else {
      assert (a + b)[1..] == a[1..] + b;
      RunConcat(After(s, a[0]), a[1..], b);
    }
  }

  ghost predicate Boot(s: Registry) {
    && s.resList == [] && AllOf(s.freeRes, 0, MAX_NUM_PROCESSES)
    && AllOf(s.freeDescs, 0, MAX_NUM_PROCESSES) && AllOf(s.freePtrs, 0, MAX_NUM_PROCESSES)
    && forall p: Block :: s.ptrsOf[p] == [] && s.owned[p] == [] && s.lastFd[p] == 0
  }

  lemma BootHolds(s: Registry)
    requires Boot(s)
    ensures RegInv(s)
  {
    SumEmpty<Block>(s.ptrsOf);
    AllOfBag(s.freeRes, 0, MAX_NUM_PROCESSES);
    AllOfBag(s.freePtrs, 0, MAX_NUM_PROCESSES);
  }

  // ---- descriptors and descriptor pointers

  /** Nobody's descriptors are left in the list of a resource without being in that of a process. */
  ghost predicate Complete(s: Registry) {
    forall r: Block, x :: x in s.ptrsOf[r] ==> x in s.owned[s.descs[x].owner]
  }

  /** Starting a process in a PCB whose last owner left descriptors open; exit releases them only when it hands
      over to the parent. */
  predicate Orphans(s: Registry, step: RegStep) {
    step.NewProcessStep? && s.owned[step.p] != []
  }

  lemma DetachComplete(s: Registry, p: Block, d: Block)
    requires RegInv(s) && Complete(s) && d in s.owned[p]
    ensures Complete(Detach(s, p, d))
  {
    PtrsApart(s, s.descs[d].resource);
    RemovedIsGone<Block>(s.owned[p], d);
    RemovedIsGone<Block>(s.ptrsOf[s.descs[d].resource], d);
  }

  lemma {:induction false} ReleaseComplete(s: Registry, p: Block)
    requires RegInv(s) && Complete(s)
    ensures Complete(ReleaseAll(s, p))
    decreases |s.owned[p]|
  {
    hide RegInv, Complete;
    if s.owned[p] != [] {
      var d := s.owned[p][0];
      DetachComplete(s, p, d);
      DetachKeeps(s, p, d);
      assert Remove(s.owned[p], d) == s.owned[p][1..];
      ReleaseComplete(Detach(s, p, d), p);
    }
  }

  lemma OpenComplete(s: Registry, p: Block, id: int, kind: int, mode: int)
    requires RegInv(s) && Complete(s) && CanCreate(s, id, mode)
    ensures Complete(Open(s, p, id, kind, mode).0)
  {
    var found := ById(s, s.resList, id);
    if s.freeDescs != [] {
      NextIsUnused(s);
    }
  }

  lemma CloseComplete(s: Registry, p: Block, fd: int)
    requires RegInv(s) && Complete(s)
    ensures Complete(Close(s, p, fd).0)
  {
    ByFdFinds(s, s.owned[p], fd);
    if ByFd(s, s.owned[p], fd).Ref? {
      DetachComplete(s, p, ByFd(s, s.owned[p], fd).p);
    }
  }

  lemma DestroyComplete(s: Registry, id: int)
    requires Complete(s)
    ensures Complete(Destroy(s, id).0)
  {
  }

  /** Exactly such a start breaks the correspondence. */
  lemma CompleteKeptIff(s: Registry, step: RegStep)
    requires RegInv(s) && Permitted(s, step) && Complete(s)
    ensures Complete(After(s, step)) <==> !Orphans(s, step)
  {
    match step
    case OpenStep(p, id, kind, mode) => OpenComplete(s, p, id, kind, mode);
    case CloseStep(p, fd) => CloseComplete(s, p, fd);
    case DestroyStep(id) => DestroyComplete(s, id);
    case ReleaseStep(p) => ReleaseComplete(s, p);
    case NewProcessStep(p) =>
      var t := NewProcess(s, p);
      if s.owned[p] != [] {
        var d := s.owned[p][0];
        assert d in s.owned[p];
        assert d in t.ptrsOf[s.descs[d].resource] && d !in t.owned[t.descs[d].owner];
      }
  }

  ghost predicate NoOrphans(s: Registry, steps: seq<RegStep>)
    requires RegInv(s) && Legal(s, steps)
    decreases |steps|
  {
    steps == [] || (!Orphans(s, steps[0]) && NoOrphans(After(s, steps[0]), steps[1..]))
  }

  lemma {:induction false} RunComplete(s: Registry, steps: seq<RegStep>)
    requires RegInv(s) && Complete(s) && Legal(s, steps) && NoOrphans(s, steps)
    ensures Complete(Run(s, steps))
    decreases |steps|
  {
    hide RegInv, Complete, After;
    if steps != [] {
      CompleteKeptIff(s, steps[0]);
      RunComplete(After(s, steps[0]), steps[1..]);
    }
  }

  /** Every descriptor of a process is in the list of its resource, every descriptor there is in use, and they
      point at each other. */
  ghost predicate Linked(s: Registry) {
    && (forall p: Block, d :: d in s.owned[p] ==>
          s.descs[d].owner == p && s.descs[d].ptr in s.ptrsOf[s.descs[d].resource] && s.pointee[s.descs[d].ptr] == d)
    && (forall r: Block, x :: x in s.ptrsOf[r] ==>
          s.descs[s.pointee[x]].ptr == x && s.descs[s.pointee[x]].resource == r)
  }

  /** No resource has a descriptor that is in no process's list. */
  ghost predicate LinkedBack(s: Registry) {
    forall r: Block, x :: x in s.ptrsOf[r] ==> s.pointee[x] in s.owned[s.descs[s.pointee[x]].owner]
  }

  lemma InvLinks(s: Registry)
    requires RegInv(s)
    ensures Linked(s) && s.freeDescs == s.freePtrs && (Complete(s) ==> LinkedBack(s))
  {
    hide Listed, Fds;
  }

  /** The pools never get out of step, so that the second allocation of an open cannot fail when the first did
      not; while PCBs are reused only without open descriptors, descriptors and pointers correspond one to
      one, across the lists of processes and resources. */
  lemma OneToOne(s: Registry, steps: seq<RegStep>)
    requires Boot(s) && RegInv(s) && Legal(s, steps)
    ensures var t := Run(s, steps); t.freeDescs == t.freePtrs && Linked(t)
    ensures NoOrphans(s, steps) ==> LinkedBack(Run(s, steps))
  {
    if NoOrphans(s, steps) {
      RunComplete(s, steps);
    }
    InvLinks(Run(s, steps));
  }

  // ---- fds

  /** Steps that take fd from process p. */
  predicate Spares(step: RegStep, p: Block, fd: int) {
    match step
    case CloseStep(q, f) => q != p || f != fd
    case ReleaseStep(q) => q != p
    case NewProcessStep(q) => q != p
    case _ => true
  }

  lemma {:induction false} ReleaseOthers(s: Registry, p: Block, q: Block)
    requires RegInv(s) && p != q
    ensures var t := ReleaseAll(s, p); t.owned[q] == s.owned[q] && t.descs == s.descs && t.lastFd == s.lastFd
    decreases |s.owned[p]|
  {
    if s.owned[p] != [] {
      DetachKeeps(s, p, s.owned[p][0]);
      hide RegInv;
      assert Remove(s.owned[p], s.owned[p][0]) == s.owned[p][1..];
      ReleaseOthers(Detach(s, p, s.owned[p][0]), p, q);
    }
  }

  lemma OwnedInUse(s: Registry, p: Block, d: Block)
    requires RegInv(s) && d in s.owned[p]
    ensures d !in s.freeDescs
  {
    PtrsApart(s, s.descs[d].resource);
  }

  /** What an open does to the descriptors of processes: nothing, or one more for p. */
  ghost predicate OneMore(s: Registry, t: Registry, p: Block) {
    || (t.owned == s.owned && t.descs == s.descs && t.lastFd == s.lastFd)
    || (&& s.freeDescs != [] && t.owned == s.owned[p := s.owned[p] + [s.freeDescs[0]]]
        && t.descs == s.descs[s.freeDescs[0] := t.descs[s.freeDescs[0]]] && t.descs[s.freeDescs[0]].fd == s.lastFd[p]
        && t.lastFd == s.lastFd[p := s.lastFd[p] + 1])
  }

  lemma OpenOwned(s: Registry, p: Block, id: int, kind: int, mode: int)
    requires RegInv(s) && CanCreate(s, id, mode)
    ensures OneMore(s, Open(s, p, id, kind, mode).0, p)
  {
    assert s.freeDescs == s.freePtrs;
    hide RegInv;
  }

  /** What a close does to them: nothing, or the one with this fd goes. */
  ghost predicate OneLess(s: Registry, t: Registry, p: Block, fd: int) {
    && t.descs == s.descs && t.lastFd == s.lastFd && (forall q: Block :: q != p ==> t.owned[q] == s.owned[q])
    && forall d :: d in t.owned[p] <==> d in s.owned[p] && s.descs[d].fd != fd
  }

  lemma CloseOwned(s: Registry, p: Block, fd: int)
    requires RegInv(s)
    ensures OneLess(s, Close(s, p, fd).0, p, fd)
  {
    ByFdFinds(s, s.owned[p], fd);
    var d := ByFd(s, s.owned[p], fd);
    if d.Ref? {
      assert NoDuplicates(s.owned[p]);
      RemovedIsGone<Block>(s.owned[p], d.p);
      forall e | e in s.owned[p]
        ensures s.descs[e].fd == fd <==> e == d.p
      {
        FdNames(s, p, fd, e);
      }
    }
  }

  /** Open and close change the list of one process. */
  lemma OpenElsewhere(s: Registry, p: Block, id: int, kind: int, mode: int)
    requires RegInv(s) && CanCreate(s, id, mode)
    ensures forall q: Block :: q != p ==> Open(s, p, id, kind, mode).0.owned[q] == s.owned[q]
  {
    OpenOwned(s, p, id, kind, mode);
    hide RegInv;
  }

  lemma CloseElsewhere(s: Registry, p: Block, fd: int)
    ensures forall q: Block :: q != p ==> Close(s, p, fd).0.owned[q] == s.owned[q]
  {
  }

  lemma DestroyOwned(s: Registry, id: int)
    ensures var t := Destroy(s, id).0; t.owned == s.owned && t.descs == s.descs && t.lastFd == s.lastFd
  {
  }

  /** A step that spares a descriptor leaves it to its process as it was. */
  lemma StepKeepsFd(s: Registry, step: RegStep, p: Block, d: Block)
    requires RegInv(s) && Permitted(s, step) && d in s.owned[p] && Spares(step, p, s.descs[d].fd)
    ensures d in After(s, step).owned[p] && After(s, step).descs[d] == s.descs[d]
  {
    hide RegInv, Open, Close, Destroy, ReleaseAll;
    OwnedInUse(s, p, d);
    match step
    case OpenStep(q, id, kind, mode) => OpenOwned(s, q, id, kind, mode);
    case CloseStep(q, fd) => CloseOwned(s, q, fd);
    case DestroyStep(id) => DestroyOwned(s, id);
    case ReleaseStep(q) => ReleaseOthers(s, q, p);
    case NewProcessStep(q) =>
  }

  /** An fd names the same descriptor, of the same resource, until its process closes it or ends. */
  lemma {:induction false} FdKeepsMeaning(s: Registry, steps: seq<RegStep>, p: Block, fd: int)
    requires RegInv(s) && Legal(s, steps) && ByFd(s, s.owned[p], fd).Ref?
    requires forall i :: 0 <= i < |steps| ==> Spares(steps[i], p, fd)
    ensures var t := Run(s, steps); var d := ByFd(s, s.owned[p], fd).p;
            ByFd(t, t.owned[p], fd) == Ref(d) && t.descs[d] == s.descs[d]
    decreases |steps|
  {
    if steps != [] {
      var d := ByFd(s, s.owned[p], fd).p;
      FdNames(s, p, fd, d);
      StepKeepsFd(s, steps[0], p, d);
      FdNames(After(s, steps[0]), p, fd, d);
      hide RegInv, After, ByFd;
      assert forall i :: 0 <= i < |steps[1..]| ==> steps[1..][i] == steps[i + 1];
      FdKeepsMeaning(After(s, steps[0]), steps[1..], p, fd);
    }
  }

  /** This fd was given out by process p once, and is closed. */
  ghost predicate Spent(s: Registry, p: Block, fd: int) {
    fd < s.lastFd[p] && forall d :: d in s.owned[p] ==> s.descs[d].fd != fd
  }

  lemma OneMoreSpent(s: Registry, t: Registry, q: Block, p: Block, fd: int)
    requires RegInv(s) && OneMore(s, t, q) && Spent(s, p, fd)
    ensures Spent(t, p, fd)
  {
    forall d | d in s.owned[p]
      ensures d !in s.freeDescs
    {
      OwnedInUse(s, p, d);
    }
    hide RegInv;
  }

  lemma StepKeepsSpent(s: Registry, step: RegStep, p: Block, fd: int)
    requires RegInv(s) && Permitted(s, step) && Spent(s, p, fd) && step != NewProcessStep(p)
    ensures Spent(After(s, step), p, fd)
  {
    hide RegInv, Open, Close, Destroy, ReleaseAll, OneMore;
    match step
    case OpenStep(q, id, kind, mode) =>
      OpenOwned(s, q, id, kind, mode);
      OneMoreSpent(s, After(s, step), q, p, fd);
    case CloseStep(q, f) => CloseOwned(s, q, f);
    case DestroyStep(id) => DestroyOwned(s, id);
    case ReleaseStep(q) =>
      ReleaseAllKeeps(s, q);
      if q != p { ReleaseOthers(s, q, p); } else { ReleaseFds(s, p); }
    case NewProcessStep(q) =>
  }

  lemma {:induction false} ReleaseFds(s: Registry, p: Block)
    requires RegInv(s)
    ensures ReleaseAll(s, p).lastFd == s.lastFd
    decreases |s.owned[p]|
  {
    hide RegInv;
    if s.owned[p] != [] {
      DetachKeeps(s, p, s.owned[p][0]);
      assert Remove(s.owned[p], s.owned[p][0]) == s.owned[p][1..];
      ReleaseFds(Detach(s, p, s.owned[p][0]), p);
    }
  }

  /** A closed fd is never used again while the process lives. */
  lemma {:induction false} FdNeverReused(s: Registry, steps: seq<RegStep>, p: Block, fd: int)
    requires RegInv(s) && Legal(s, steps) && Spent(s, p, fd)
    requires NewProcessStep(p) !in steps
    ensures ByFd(Run(s, steps), Run(s, steps).owned[p], fd).Null?
    decreases |steps|
  {
    hide RegInv, After;
    if steps == [] {
      ByFdFinds(s, s.owned[p], fd);
    } else {
      StepKeepsSpent(s, steps[0], p, fd);
      hide Spent;
      FdNeverReused(After(s, steps[0]), steps[1..], p, fd);
    }
  }

  // ---- what opening promises

  /** The only resource with this id. */
  lemma ListedId(s: Registry, r: Block)
    requires RegInv(s) && r in s.resList
    ensures ById(s, s.resList, s.ids[r]) == Ref(r)
  {
    ByIdFinds(s, s.resList, s.ids[r]);
  }

  /** What an open needs: DSOS_CREATE exactly when the resource does not exist; for an existing one, the right
      type and, with DSOS_EXCL, nobody else having it open; and a free descriptor. */
  ghost predicate CanOpen(s: Registry, id: int, kind: int, mode: int) {
    && s.freeDescs != []
    && (CreateSet(mode) <==> forall r :: r in s.resList ==> s.ids[r] != id)
    && forall r :: r in s.resList && s.ids[r] == id ==> s.types[r] == kind && (ExclSet(mode) ==> s.ptrsOf[r] == [])
  }

  /** An open succeeds exactly then, and returns last_fd. */
  lemma OpenSucceedsIff(s: Registry, p: Block, id: int, kind: int, mode: int)
    requires RegInv(s) && CanCreate(s, id, mode)
    ensures var (t, fd) := Open(s, p, id, kind, mode);
            && (fd >= 0 <==> CanOpen(s, id, kind, mode))
            && (fd >= 0 ==> fd == s.lastFd[p])
            && (fd < 0 ==> t.owned == s.owned && t.freeDescs == s.freeDescs)
  {
    ByIdFinds(s, s.resList, id);
    var found := ById(s, s.resList, id);
    if found.Ref? {
      forall r | r in s.resList && s.ids[r] == id
        ensures r == found.p
      {
        ListedId(s, r);
      }
    }
    assert s.lastFd[p] >= 0 && s.freeDescs == s.freePtrs;
    hide RegInv, ById;
  }

  /** The fd returned names a descriptor of a resource with this id and type. */
  lemma OpenedIsNamed(s: Registry, p: Block, id: int, kind: int, mode: int)
    requires RegInv(s) && CanCreate(s, id, mode) && CanOpen(s, id, kind, mode)
    ensures var (t, fd) := Open(s, p, id, kind, mode); var d := s.freeDescs[0]; var r := t.descs[d].resource;
            ByFd(t, t.owned[p], fd) == Ref(d) && r in t.resList && t.ids[r] == id && t.types[r] == kind
  {
    hide RegInv, ById, ByFd;
    PoolsInStep(s);
    var (t, fd) := Open(s, p, id, kind, mode);
    OpenKeeps(s, p, id, kind, mode);
    FdNames(t, p, fd, s.freeDescs[0]);
    ByIdFinds(s, s.resList, id);
  }

  /** Closing what was just attached restores every list and free list; last_fd has moved on. */
  lemma AttachThenClose(s: Registry, p: Block, r: Block)
    requires RegInv(s) && s.freeDescs != [] && r in s.resList
    ensures var t := Attach(s, p, r);
            Close(t, p, s.lastFd[p]) == (s.(descs := t.descs, pointee := t.pointee, lastFd := t.lastFd), 0)
  {
    hide RegInv, ByFd, Remove;
    PoolsInStep(s);
    var t := Attach(s, p, r);
    var d := s.freeDescs[0];
    AttachKeeps(s, p, r);
    FdNames(t, p, s.lastFd[p], d);
    NextIsUnused(s);
    RemoveAppended<Block>(s.owned[p], d);
    RemoveAppended<Block>(s.ptrsOf[r], d);
    var u := Detach(t, p, d);
    assert u.owned == s.owned && u.ptrsOf == s.ptrsOf && u.freeDescs == s.freeDescs && u.freePtrs == s.freePtrs;
  }

  /** Opening an existing resource and closing it. */
  lemma CloseUndoesOpen(s: Registry, p: Block, id: int, kind: int, mode: int)
    requires RegInv(s) && !CreateSet(mode) && CanOpen(s, id, kind, mode)
    ensures var (t, fd) := Open(s, p, id, kind, mode);
            Close(t, p, fd) == (s.(descs := t.descs, pointee := t.pointee, lastFd := t.lastFd), 0)
  {
    ByIdFinds(s, s.resList, id);
    var r := ById(s, s.resList, id).p;
    assert s.freeDescs == s.freePtrs;
    AttachThenClose(s, p, r);
    hide RegInv, ById, Close;
  }

  lemma NewThenDestroy(s: Registry, id: int, kind: int)
    requires RegInv(s) && s.freeRes != [] && ById(s, s.resList, id).Null?
    ensures var t := NewResource(s, id, kind);
            t.ptrsOf == s.ptrsOf && s.ptrsOf[s.freeRes[0]] == []
            && Destroy(t, id) == (s.(ids := t.ids, types := t.types), 0)
  {
    hide RegInv, ById, Remove;
    var r := s.freeRes[0];
    FreeUnlisted(s);
    var t := NewResource(s, id, kind);
    NewResourceKeeps(s, id, kind);
    ListedId(t, r);
    RemoveAppended<Block>(s.resList, r);
    assert [r] + s.freeRes[1..] == s.freeRes;
  }

  lemma FreeUnlisted(s: Registry)
    requires RegInv(s) && s.freeRes != []
    ensures s.freeRes[0] !in s.resList && s.ptrsOf[s.freeRes[0]] == []
  {
    hide Mutual, Owned, Fds, Exactly;
    ResApart(s);
  }

  /** Creating a resource, closing it and destroying it restores every list and free list; last_fd has moved on. */
  lemma CreateCloseDestroy(s: Registry, p: Block, id: int, kind: int, mode: int)
    requires RegInv(s) && CreateSet(mode) && CanCreate(s, id, mode) && CanOpen(s, id, kind, mode)
    ensures var (t, fd) := Open(s, p, id, kind, mode);
            var (u, ok) := Close(t, p, fd);
            && ok == 0
            && Destroy(u, id) == (s.(ids := t.ids, types := t.types, descs := t.descs, pointee := t.pointee,
                                     lastFd := t.lastFd), 0)
  {
    ByIdFinds(s, s.resList, id);
    NewThenDestroy(s, id, kind);
    NewResourceKeeps(s, id, kind);
    var c := NewResource(s, id, kind);
    var r := s.freeRes[0];
    assert s.freeDescs == s.freePtrs;
    AttachThenClose(c, p, r);
    var t := Attach(c, p, r);
    SameById(c, c.(descs := t.descs, pointee := t.pointee, lastFd := t.lastFd), c.resList, id);
    hide RegInv, ById, Close;
  }

  lemma {:induction false} SameById(s: Registry, t: Registry, rs: seq<Block>, id: int)
    requires t.ids == s.ids
    ensures ById(t, rs, id) == ById(s, rs, id)
  {
    if rs != [] {
      SameById(s, t, rs[1..], id);
    }
  }

  // ---- the release loop of exit

  /** The process closes each of its fds, first opened first. */
  function CloseInTurn(s: Registry, p: Block, n: nat): Registry
    decreases n
  {
    if n == 0 || s.owned[p] == [] then s
    else CloseInTurn(Close(s, p, s.descs[s.owned[p][0]].fd).0, p, n - 1)
  }

  /** Releasing everything is closing everything. */
  lemma {:induction false} ReleaseIsClosing(s: Registry, p: Block)
    requires RegInv(s)
    ensures ReleaseAll(s, p) == CloseInTurn(s, p, |s.owned[p]|)
    decreases |s.owned[p]|
  {
    hide RegInv;
    if s.owned[p] != [] {
      var d := s.owned[p][0];
      DetachKeeps(s, p, d);
      assert ByFd(s, s.owned[p], s.descs[d].fd) == Ref(d);
      assert Remove(s.owned[p], d) == s.owned[p][1..];
      ReleaseIsClosing(Detach(s, p, d), p);
    }
  }

  /** The descriptors of the process, and no others, are gone from the resources, and free. */
  ghost predicate Released(s: Registry, t: Registry, p: Block) {
    && t.owned == s.owned[p := []] && |t.freeDescs| == |s.freeDescs| + |s.owned[p]|
    && forall r: Block, x :: x in t.ptrsOf[r] <==> x in s.ptrsOf[r] && x !in s.owned[p]
  }

  lemma ReleasedMore(s: Registry, u: Registry, t: Registry, p: Block)
    requires s.owned[p] != [] && Released(u, t, p)
    requires u.owned == s.owned[p := s.owned[p][1..]] && |u.freeDescs| == |s.freeDescs| + 1
    requires forall r: Block, x :: x in u.ptrsOf[r] <==> x in s.ptrsOf[r] && x != s.owned[p][0]
    ensures Released(s, t, p)
  {
    var d, l := s.owned[p][0], s.owned[p];
    assert u.owned[p := []] == s.owned[p := []];
    forall r: Block, x: Block
      ensures x in t.ptrsOf[r] <==> x in s.ptrsOf[r] && x !in s.owned[p]
    {
      assert x in l <==> x == d || x in l[1..];
      assert x in u.owned[p] <==> x in l[1..];
    }
  }

  lemma {:induction false} ReleaseRemovesOwn(s: Registry, p: Block)
    requires RegInv(s)
    ensures Released(s, ReleaseAll(s, p), p)
    decreases |s.owned[p]|
  {
    if s.owned[p] == [] {
      assert s.owned == s.owned[p := []];
    } else {
      var d := s.owned[p][0];
      var u := Detach(s, p, d);
      DetachKeeps(s, p, d);
      assert Remove(s.owned[p], d) == s.owned[p][1..];
      DetachRemoves(s, p, d);
      assert ReleaseAll(s, p) == ReleaseAll(u, p);
      hide RegInv, Detach, Released, ReleaseAll;
      ReleaseRemovesOwn(u, p);
      ReleasedMore(s, u, ReleaseAll(u, p), p);
    }
  }

  lemma DetachRemoves(s: Registry, p: Block, d: Block)
    requires RegInv(s) && d in s.owned[p]
    ensures var t := Detach(s, p, d);
            && (forall r: Block, x :: x in t.ptrsOf[r] <==> x in s.ptrsOf[r] && x != d)
            && t.owned == s.owned[p := Remove(s.owned[p], d)] && |t.freeDescs| == |s.freeDescs| + 1
  {
    PtrsApart(s, s.descs[d].resource);
    RemovedIsGone<Block>(s.ptrsOf[s.descs[d].resource], d);
  }
}
