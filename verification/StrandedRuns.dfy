/** What becomes of processes blocked on a semaphore that was closed under them: nobody wakes them, whatever is called,
    until the semaphore's block is given out again. */
module StrandedRuns {
  import opened Bags
  import opened Timers
  import opened Processes
  import opened ProcessLaws
  import opened ProcessSteps
  import opened Semaphores
  import opened SemaphoreLaws
  import opened KernelRuns

  /** The step creates a semaphore in block m. */
  predicate GivesOut(k: Kern, step: Step, m: Block)
    requires Enabled(k, step)
  {
    && step.SemOpenCall? && Creates(RecordCall(k, step), step.id, step.flags)
    && k.x.freeSems != [] && k.x.freeSems[0] == m
  }

  predicate Keeps(k: Kern, steps: seq<Step>, m: Block)
    requires Legal(k, steps)
    decreases |steps|
  {
    steps == [] || (!GivesOut(k, steps[0], m) && Keeps(Next(k, steps[0]), steps[1..], m))
  }

  /** y is x with semaphore m still in the list, under an id that no call can name. */
  ghost predicate Shadow(x: Sems, y: Sems, m: Block) {
    && x == y.(semList := x.semList, freeSems := x.freeSems, ids := x.ids)
    && y.ids == x.ids[m := -1]
    && m in y.semList && x.semList == Remove(y.semList, m)
    && m in x.freeSems && y.freeSems == Remove(x.freeSems, m)
  }

  /** Nobody has an idle descriptor of m, and somebody waits. */
  ghost predicate Stranded(u: Kern, m: Block) {
    KernInv(u) && m in u.x.semList && u.x.attached[m] == [] && u.x.waiters[m] != []
  }

  /** What semaphore m is to its waiters has not changed. */
  ghost predicate Untouched(x: Sems, y: Sems, m: Block) {
    && y.waiters[m] == x.waiters[m] && y.history[m] == x.history[m] && y.attached[m] == x.attached[m]
  }

  // ---- what the handlers do, in the shadow

  lemma AcquireShadows(x: Sems, y: Sems, m: Block, n: Block, r: Block)
    requires Shadow(x, y, m) && n != m
    ensures Shadow(Acquire(x, n, r), Acquire(y, n, r), m) && Untouched(y, Acquire(y, n, r), m)
  {
  }

  lemma EnqueueShadows(x: Sems, y: Sems, m: Block, n: Block, d: Block)
    requires Shadow(x, y, m) && n != m
    ensures Shadow(Enqueue(x, n, d), Enqueue(y, n, d), m) && Untouched(y, Enqueue(y, n, d), m)
  {
  }

  lemma ReleaseShadows(x: Sems, y: Sems, m: Block, n: Block, r: Block)
    requires Shadow(x, y, m) && n != m
    ensures Shadow(Release(x, n, r), Release(y, n, r), m) && Untouched(y, Release(y, n, r), m)
  {
  }

  lemma DequeueShadows(x: Sems, y: Sems, m: Block, n: Block)
    requires Shadow(x, y, m) && n != m && x.waiters[n] != []
    ensures Shadow(Dequeue(x, n), Dequeue(y, n), m) && Untouched(y, Dequeue(y, n), m)
  {
  }

  lemma DetachShadows(x: Sems, y: Sems, m: Block, r: Block, d: Block)
    requires Shadow(x, y, m) && x.descs[d].sem != m
    ensures Shadow(Detach(x, r, d), Detach(y, r, d), m) && Untouched(y, Detach(y, r, d), m)
  {
  }

  lemma {:induction false} RemoveCommutes(l: seq<Block>, a: Block, b: Block)
    ensures Remove(Remove(l, a), b) == Remove(Remove(l, b), a)
  {
    if l != [] {
      RemoveCommutes(l[1..], a, b);
    }
  }

  lemma {:induction false} StillThere(l: seq<Block>, a: Block, b: Block)
    requires a in l && a != b
    ensures a in Remove(l, b)
  {
    if l[0] != a && l[0] != b {
      StillThere(l[1..], a, b);
    }
  }

  lemma DestroyShadows(x: Sems, y: Sems, m: Block, n: Block)
    requires Shadow(x, y, m) && n != m
    ensures Shadow(Destroy(x, n), Destroy(y, n), m) && Untouched(y, Destroy(y, n), m)
  {
    RemoveCommutes(y.semList, m, n);
    StillThere(y.semList, m, n);
    assert ([n] + x.freeSems)[1..] == x.freeSems;
  }

  lemma {:induction false} RemoveBefore(l: seq<Block>, a: Block, b: Block)
    requires a in l
    ensures Remove(l + [b], a) == Remove(l, a) + [b]
  {
    if l[0] == a {
      assert (l + [b])[1..] == l[1..] + [b];
    } else {
      RemoveBefore(l[1..], a, b);
      assert (l + [b])[1..] == l[1..] + [b];
    }
  }

  lemma CreateShadows(x: Sems, y: Sems, m: Block, id: int, count: int)
    requires Shadow(x, y, m) && x.freeSems[0] != m
    ensures y.freeSems != [] && y.freeSems[0] == x.freeSems[0]
    ensures Shadow(Create(x, id, count), Create(y, id, count), m) && Untouched(y, Create(y, id, count), m)
  {
    RemoveBefore(y.semList, m, x.freeSems[0]);
    assert y.freeSems == [x.freeSems[0]] + Remove(x.freeSems[1..], m);
    assert Create(y, id, count).ids == Create(x, id, count).ids[m := -1];
  }

  lemma AttachShadows(k: Kern, u: Kern, m: Block, n: Block)
    requires k.p == u.p && Shadow(k.x, u.x, m) && n != m && k.p.running.Ref?
    ensures Attach(k, n).p == Attach(u, n).p && Shadow(Attach(k, n).x, Attach(u, n).x, m)
    ensures Untouched(u.x, Attach(u, n).x, m)
  {
  }

  // ---- lookups

  lemma {:induction false} SameByFd(x: Sems, y: Sems, ds: seq<Block>, fd: int)
    requires y.descs == x.descs
    ensures ByFd(x, ds, fd) == ByFd(y, ds, fd)
  {
    if ds != [] {
      SameByFd(x, y, ds[1..], fd);
    }
  }

  lemma {:induction false} SameById(x: Sems, y: Sems, l: seq<Block>, m: Block, id: int)
    requires y.ids == x.ids[m := -1] && id >= 0 && m in l && NoDuplicates(l)
    ensures ById(x, Remove(l, m), id) == ById(y, l, id)
  {
    if l[0] == m {
      IdsElsewhere(x, y, l[1..], m, id);
    } else {
      SameById(x, y, l[1..], m, id);
      assert Remove(l, m) == [l[0]] + Remove(l[1..], m);
    }
  }

  lemma {:induction false} IdsElsewhere(x: Sems, y: Sems, l: seq<Block>, m: Block, id: int)
    requires y.ids == x.ids[m := -1] && m !in l
    ensures ById(x, l, id) == ById(y, l, id)
  {
    if l != [] {
      IdsElsewhere(x, y, l[1..], m, id);
    }
  }

  lemma SameLookup(k: Kern, u: Kern, m: Block, fd: int)
    requires k.p == u.p && Shadow(k.x, u.x, m) && k.p.running.Ref?
    ensures Lookup(k, fd) == Lookup(u, fd)
  {
    SameByFd(k.x, u.x, k.x.owned[k.p.running.p], fd);
  }

  /** What the running process looks up is not about m. */
  lemma NotAboutM(u: Kern, m: Block, fd: int)
    requires Stranded(u, m) && u.p.running.Ref? && Lookup(u, fd).Ref?
    ensures u.x.descs[Lookup(u, fd).p].sem != m
  {
    LookupFacts(u, fd);
  }

  lemma SameFound(k: Kern, u: Kern, m: Block, id: int)
    requires Stranded(u, m) && Shadow(k.x, u.x, m) && id >= 0
    ensures ById(k.x, k.x.semList, id) == ById(u.x, u.x.semList, id)
    ensures ById(k.x, k.x.semList, id) != Ref(m)
  {
    ListOnce(u);
    SameById(k.x, u.x, u.x.semList, m, id);
    ByIdMember(u.x, u.x.semList, id);
  }

  lemma ListOnce(u: Kern)
    requires KernInv(u)
    ensures NoDuplicates(u.x.semList) && |u.x.freeSems| + |u.x.semList| == MAX_NUM_SEMAPHORES
  {
    assert forall b: Block :: SemBag(u.x)[b] <= 1;
    ExactlySize(SemBag(u.x), MAX_NUM_SEMAPHORES);
    forall b: Block
      ensures multiset(u.x.semList)[b] <= 1
    {
      assert SemBag(u.x)[b] <= 1;
    }
    BagNoDuplicates<Block>(u.x.semList);
  }

  lemma SameCreates(k: Kern, u: Kern, m: Block, id: int, flags: int)
    requires k.p == u.p && Stranded(u, m) && Shadow(k.x, u.x, m) && k.p.running.Ref?
    requires Creates(k, id, flags) ==> k.x.freeSems[0] != m
    ensures Creates(k, id, flags) <==> Creates(u, id, flags)
  {
    ListOnce(u);
    RemovedIsGone(u.x.semList, m);
    if id >= 0 {
      SameFound(k, u, m, id);
    }
  }

  // ---- the calls

  /** The same call in the shadow. */
  ghost predicate Follows(k: Kern, u: Kern, v: Kern, m: Block) {
    k.p == v.p && Shadow(k.x, v.x, m) && Untouched(u.x, v.x, m)
  }

  lemma WaitShadows(k: Kern, u: Kern, m: Block, fd: int)
    requires k.p == u.p && Stranded(u, m) && Shadow(k.x, u.x, m) && k.p.running.Ref?
    requires WouldBlock(k, fd) ==> k.p.ready != []
    ensures WouldBlock(u, fd) ==> u.p.ready != []
    ensures Follows(SemWait(k, fd), u, SemWait(u, fd), m)
  {
    hide KernInv, Lookup, Acquire, Enqueue, Shadow;
    SameLookup(k, u, m, fd);
    SameTables(k.x, u.x, m);
    var d := Lookup(u, fd);
    if d.Ref? {
      NotAboutM(u, m, fd);
      AcquireShadows(k.x, u.x, m, u.x.descs[d.p].sem, k.p.running.p);
      EnqueueShadows(k.x, u.x, m, u.x.descs[d.p].sem, d.p);
    }
  }

  lemma PostShadows(k: Kern, u: Kern, m: Block, fd: int)
    requires k.p == u.p && Stranded(u, m) && Shadow(k.x, u.x, m) && k.p.running.Ref?
    ensures Follows(SemPost(k, fd), u, SemPost(u, fd), m)
  {
    hide KernInv, Lookup, Release, Dequeue, Shadow;
    SameLookup(k, u, m, fd);
    var d := Lookup(u, fd);
    if d.Ref? {
      NotAboutM(u, m, fd);
      var n, r := u.x.descs[d.p].sem, k.p.running.p;
      SameTables(k.x, u.x, m);
      ReleaseShadows(k.x, u.x, m, n, r);
      SameTables(Release(k.x, n, r), Release(u.x, n, r), m);
      if Release(u.x, n, r).waiters[n] != [] {
        DequeueShadows(Release(k.x, n, r), Release(u.x, n, r), m, n);
      }
    }
  }

  lemma SameTables(x: Sems, y: Sems, m: Block)
    requires Shadow(x, y, m)
    ensures x.counts == y.counts && x.waiters == y.waiters && x.descs == y.descs && x.attached == y.attached
    ensures x.lastFd == y.lastFd
  {
  }

  lemma CloseShadows(k: Kern, u: Kern, m: Block, fd: int)
    requires k.p == u.p && Stranded(u, m) && Shadow(k.x, u.x, m) && k.p.running.Ref? && CloseSafe(k, fd)
    ensures CloseSafe(u, fd) && Follows(SemClose(k, fd), u, SemClose(u, fd), m)
  {
    hide KernInv, Lookup, Detach, Destroy, Shadow;
    SameLookup(k, u, m, fd);
    SameTables(k.x, u.x, m);
    var d := Lookup(u, fd);
    if d.Ref? {
      NotAboutM(u, m, fd);
      var n, r := u.x.descs[d.p].sem, k.p.running.p;
      DetachShadows(k.x, u.x, m, r, d.p);
      SameTables(Detach(k.x, r, d.p), Detach(u.x, r, d.p), m);
      DetachKeepsDescs(k.x, r, d.p);
      DetachKeepsDescs(u.x, r, d.p);
      DestroyShadows(Detach(k.x, r, d.p), Detach(u.x, r, d.p), m, n);
    }
  }

  lemma DetachKeepsDescs(x: Sems, r: Block, d: Block)
    ensures Detach(x, r, d).descs == x.descs
  {
  }

  lemma CreatesFacts(k: Kern, id: int, flags: int)
    requires k.p.running.Ref?
    ensures Creates(k, id, flags) ==> id >= 0 && k.x.freeSems != []
  {
  }

  lemma OpenShadows(k: Kern, u: Kern, m: Block, id: int, flags: int, count: int)
    requires k.p == u.p && Stranded(u, m) && Shadow(k.x, u.x, m) && k.p.running.Ref?
    requires Creates(k, id, flags) ==> k.x.freeSems[0] != m
    ensures Creates(k, id, flags) <==> Creates(u, id, flags)
    ensures Follows(SemOpen(k, id, flags, count), u, SemOpen(u, id, flags, count), m)
  {
    hide KernInv, Attach, Create, Creates, Shadow;
    SameCreates(k, u, m, id, flags);
    SameTables(k.x, u.x, m);
    CreatesFacts(k, id, flags);
    if id >= 0 {
      SameFound(k, u, m, id);
      var found := ById(u.x, u.x.semList, id);
      if Creates(k, id, flags) {
        var c := InitialCount(count);
        CreateShadows(k.x, u.x, m, id, c);
        AttachShadows(k.(x := Create(k.x, id, c)), u.(x := Create(u.x, id, c)), m, k.x.freeSems[0]);
      } else if found.Ref? {
        AttachShadows(k, u, m, found.p);
      }
    }
  }

  // ---- any step, any run

  lemma HandleShadows(k: Kern, u: Kern, step: Step, m: Block)
    requires k.p == u.p && Stranded(u, m) && Shadow(k.x, u.x, m) && k.p.running.Ref? && Handles(k, step)
    requires step.SemOpenCall? && Creates(k, step.id, step.flags) ==> k.x.freeSems[0] != m
    ensures Handles(u, step) && Follows(Handle(k, step), u, Handle(u, step), m)
  {
    hide KernInv, SemWait, SemPost, SemOpen, SemClose, CloseSafe, WouldBlock, Creates;
    match step
    case SemOpenCall(id, flags, count) => OpenShadows(k, u, m, id, flags, count);
    case SemCloseCall(fd) => CloseShadows(k, u, m, fd);
    case SemWaitCall(fd) => WaitShadows(k, u, m, fd);
    case SemPostCall(fd) => PostShadows(k, u, m, fd);
    case _ =>
  }

  lemma NextShadows(k: Kern, u: Kern, step: Step, m: Block)
    requires k.p == u.p && Stranded(u, m) && Shadow(k.x, u.x, m) && Enabled(k, step) && !GivesOut(k, step, m)
    ensures Enabled(u, step) && Follows(Next(k, step), u, Next(u, step), m) && Stranded(Next(u, step), m)
  {
    hide KernInv, Handle, Handles, Shadow;
    RecordCallKeepsInv(u, step);
    RecordedSame(k, u, step);
    HandleShadows(RecordCall(k, step), RecordCall(u, step), step, m);
    NextKeepsInv(u, step);
    StillListed(k, u, step, m);
  }

  lemma RecordedSame(k: Kern, u: Kern, step: Step)
    requires k.p == u.p && k.p.running.Ref?
    ensures RecordCall(k, step).p == RecordCall(u, step).p && RecordCall(k, step).p.running == k.p.running
    ensures RecordCall(k, step).x == k.x && RecordCall(u, step).x == u.x
  {
  }

  lemma StillListed(k: Kern, u: Kern, step: Step, m: Block)
    requires Enabled(k, step) && Enabled(u, step) && Shadow(Next(k, step).x, Next(u, step).x, m)
    ensures m in Next(u, step).x.semList
  {
    hide Next;
  }

  lemma {:induction false} RunShadows(k: Kern, u: Kern, steps: seq<Step>, m: Block)
    requires k.p == u.p && Stranded(u, m) && Shadow(k.x, u.x, m) && Legal(k, steps) && Keeps(k, steps, m)
    ensures Legal(u, steps) && Follows(Run(k, steps), u, Run(u, steps), m) && KernInv(Run(u, steps))
    decreases |steps|
  {
    hide KernInv, Next, Enabled, Shadow, GivesOut;
    if steps != [] {
      NextShadows(k, u, steps[0], m);
      RunShadows(Next(k, steps[0]), Next(u, steps[0]), steps[1..], m);
    }
  }

  // ---- after the close

  /** The state just before the destruction, with m renamed. */
  function Kept(k: Kern, fd: int): Kern
    requires k.p.running.Ref? && Lookup(k, fd).Ref?
  {
    var d := Lookup(k, fd).p;
    var x := Detach(k.x, k.p.running.p, d);
    Kern(Return(k.p, 0), x.(ids := x.ids[k.x.descs[d].sem := -1]))
  }

  lemma RenamedKeeps(x: Sems, ids: IntTable)
    requires SemInv(x)
    ensures SemInv(x.(ids := ids)) && WaiterBag(x.(ids := ids)) == WaiterBag(x)
  {
    var y := x.(ids := ids);
    assert DescBag(y) == DescBag(x) && OwnedBag(y) == OwnedBag(x) && SemBag(y) == SemBag(x);
    SameWaiterPcbs(x, y);
    forall m | m in y.semList
      ensures Law(y, m)
    {
      SameLaw(x, y, m);
    }
  }

  lemma KeptIsStranded(k: Kern, fd: int)
    requires KernInv(k) && k.p.running.Ref? && !CloseSafe(k, fd)
    ensures Stranded(Kept(k, fd), k.x.descs[Lookup(k, fd).p].sem)
  {
    hide Inv;
    var d := Lookup(k, fd).p;
    LookupFacts(k, fd);
    var x := Detach(k.x, k.p.running.p, d);
    DetachKeeps(k.x, k.p.running.p, d);
    RenamedKeeps(x, x.ids[k.x.descs[d].sem := -1]);
    ReturnKeepsInv(k.p, WaiterBag(k.x), 0);
    hide SemInv;
  }

  lemma CloseLeavesShadow(k: Kern, fd: int)
    requires KernInv(k) && k.p.running.Ref? && !CloseSafe(k, fd)
    ensures var t, u := SemClose(k, fd), Kept(k, fd);
            t.p == u.p && Shadow(t.x, u.x, k.x.descs[Lookup(k, fd).p].sem) && u.x.waiters == k.x.waiters
            && u.x.history == k.x.history
  {
    LookupFacts(k, fd);
    hide KernInv;
    var m, t := k.x.descs[Lookup(k, fd).p].sem, SemClose(k, fd);
    assert t.x.freeSems[1..] == k.x.freeSems;
  }

  /** Those on the wait list of a listed semaphore are on the waiting list, and are the ones its history says. */
  lemma WaitersWait(u: Kern, m: Block)
    requires KernInv(u) && m in u.x.semList
    ensures u.x.history[m].blocked == u.x.history[m].woken + Owners(u.x, u.x.waiters[m])
    ensures forall q :: q in Owners(u.x, u.x.waiters[m]) ==> q in u.p.waiting
  {
    assert Law(u.x, m);
    forall q | q in Owners(u.x, u.x.waiters[m])
      ensures q in u.p.waiting
    {
      var i :| 0 <= i < |u.x.waiters[m]| && Owners(u.x, u.x.waiters[m])[i] == q;
      WaiterOwnerCounted(u.x, m, u.x.waiters[m][i]);
      assert multiset(Pcbs(u.p.timers)) + WaiterBag(u.x) <= multiset(u.p.waiting);
      InBag(u.p.waiting, q);
    }
  }

  /** Whatever the processes do after a semaphore was closed under its waiters, these stay blocked, in their order,
      until a semaphore is created in its block. */
  lemma StrandedUntilReused(k: Kern, fd: int, steps: seq<Step>)
    requires KernInv(k) && k.p.running.Ref? && !CloseSafe(k, fd)
    requires Legal(SemClose(k, fd), steps)
    requires Keeps(SemClose(k, fd), steps, k.x.descs[Lookup(k, fd).p].sem)
    ensures var t, m := Run(SemClose(k, fd), steps), k.x.descs[Lookup(k, fd).p].sem;
            && m in t.x.freeSems && t.x.waiters[m] == k.x.waiters[m] != []
            && Owners(t.x, t.x.waiters[m]) == Owners(k.x, k.x.waiters[m])
            && forall q :: q in Owners(k.x, k.x.waiters[m]) ==> q in t.p.waiting
  {
    hide KernInv, Legal, Keeps, Run, SemClose, Kept, Law, Lookup;
    var m, u := k.x.descs[Lookup(k, fd).p].sem, Kept(k, fd);
    LookupFacts(k, fd);
    KeptIsStranded(k, fd);
    CloseLeavesShadow(k, fd);
    RunShadows(SemClose(k, fd), u, steps, m);
    var t, v := Run(SemClose(k, fd), steps), Run(u, steps);
    ShadowFacts(t.x, v.x, m);
    WaitersWait(k, m);
    WaitersWait(v, m);
    SameOwners(t.x, v.x, v.x.waiters[m]);
    SameRest(k.x.history[m].woken, Owners(k.x, k.x.waiters[m]), Owners(v.x, v.x.waiters[m]));
    WaitersFromClose(k, fd);
  }

  lemma ShadowFacts(x: Sems, y: Sems, m: Block)
    requires Shadow(x, y, m)
    ensures x.waiters == y.waiters && x.descs == y.descs && m in x.freeSems && m in y.semList
  {
  }

  lemma SameOwners(x: Sems, y: Sems, ds: seq<Block>)
    requires x.descs == y.descs
    ensures Owners(x, ds) == Owners(y, ds)
  {
  }

  lemma SameRest(prefix: seq<Block>, a: seq<Block>, b: seq<Block>)
    requires prefix + a == prefix + b
    ensures a == b
  {
    assert a == (prefix + a)[|prefix|..] && b == (prefix + b)[|prefix|..];
  }

  lemma WaitersFromClose(k: Kern, fd: int)
    requires KernInv(k) && k.p.running.Ref? && !CloseSafe(k, fd)
    ensures k.x.waiters[k.x.descs[Lookup(k, fd).p].sem] != []
  {
  }
}
