/** The laws of the semaphores, each kept by the four semaphore handlers. */
module SemaphoreLaws {
  import opened Bags
  import opened Timers
  import opened Processes
  import opened Semaphores

  ghost function DescBag(x: Sems): multiset<Block> {
    multiset(x.freeDescs) + Sum(x.attached) + Sum(x.waiters)
  }

  ghost function OwnedBag(x: Sems): multiset<Block> {
    multiset(x.freeDescs) + Sum(x.owned)
  }

  ghost function SemBag(x: Sems): multiset<Block> {
    multiset(x.freeSems) + multiset(x.semList)
  }

  /** Every descriptor block is free, or in one list of one semaphore and in the list of one process;
      every semaphore block is free or in semaphores_list. */
  ghost predicate Conserved(x: Sems) {
    && Exactly(DescBag(x), MAX_NUM_PROCESSES)
    && Exactly(OwnedBag(x), MAX_NUM_PROCESSES)
    && Exactly(SemBag(x), MAX_NUM_SEMAPHORES)
  }

  /** A descriptor names the process and the semaphore in whose lists it is; a free semaphore has none. */
  ghost predicate Linked(x: Sems) {
    && (forall p: Block, d :: d in x.owned[p] ==> x.descs[d].owner == p)
    && (forall m: Block, d :: d in x.attached[m] ==> x.descs[d].sem == m)
    && (forall m: Block, d :: d in x.waiters[m] ==> x.descs[d].sem == m)
    && (forall m :: m in x.freeSems ==> x.attached[m] == [] && x.waiters[m] == [])
  }

  function Owners(x: Sems, ds: seq<Block>): (r: seq<Block>)
    ensures |r| == |ds|
  {
    seq(|ds|, i requires 0 <= i < |ds| => x.descs[ds[i]].owner)
  }

  /** The law of one semaphore. */
  ghost predicate Law(x: Sems, m: Block) {
    var h := x.history[m];
    && x.counts[m] >= 0
    && (x.waiters[m] != [] ==> x.counts[m] == 0)
    && x.counts[m] + h.waits == h.initial + h.posts
    && h.blocked == h.woken + Owners(x, x.waiters[m])
  }

  ghost predicate Laws(x: Sems) {
    forall m :: m in x.semList ==> Law(x, m)
  }

  /** Every post so far was by a process that had completed a wait and not posted since. */
  ghost predicate Disciplined(x: Sems, m: Block) {
    x.history[m].waits == x.history[m].posts + |x.history[m].holders|
  }

  ghost predicate SemInv(x: Sems) {
    && Conserved(x)
    && Linked(x)
    && Laws(x)
  }

  /** The PCBs on the wait lists. */
  ghost function WaiterPcbs(x: Sems): seq<seq<Block>> {
    seq(MAX_NUM_PROCESSES, m requires 0 <= m < MAX_NUM_PROCESSES => Owners(x, x.waiters[m]))
  }

  ghost function WaiterBag(x: Sems): multiset<Block> {
    Sum(WaiterPcbs(x))
  }

  // ---- finding descriptors

  lemma {:induction false} ByFdMember(x: Sems, ds: seq<Block>, fd: int)
    ensures ByFd(x, ds, fd).Ref? ==> ByFd(x, ds, fd).p in ds && x.descs[ByFd(x, ds, fd).p].fd == fd
    ensures ByFd(x, ds, fd).Null? ==> forall d :: d in ds ==> x.descs[d].fd != fd
  {
    if ds != [] {
      ByFdMember(x, ds[1..], fd);
      assert ds == [ds[0]] + ds[1..];
    }
  }

  lemma {:induction false} ByIdMember(x: Sems, sems: seq<Block>, id: int)
    ensures ById(x, sems, id).Ref? ==> ById(x, sems, id).p in sems && x.ids[ById(x, sems, id).p] == id
    ensures ById(x, sems, id).Null? ==> forall m :: m in sems ==> x.ids[m] != id
  {
    if sems != [] {
      ByIdMember(x, sems[1..], id);
      assert sems == [sems[0]] + sems[1..];
    }
  }

  /** A descriptor of a process that is on no wait list is among its semaphore's idle descriptors. */
  lemma OwnedDescriptor(x: Sems, r: Block, d: Block)
    requires Conserved(x) && Linked(x) && d in x.owned[r] && r !in WaiterBag(x)
    ensures var m := x.descs[d].sem;
            && x.descs[d].owner == r && d !in x.freeDescs && m in x.semList
            && d in x.attached[m] && (forall n: Block :: d !in x.waiters[n])
  {
    SumContains(x.owned, r);
    assert d in multiset(x.owned[r]);
    assert OwnedBag(x)[d] == 1 && Sum(x.owned)[d] >= multiset(x.owned[r])[d] >= 1;
    assert d !in multiset(x.freeDescs);
    forall n: Block
      ensures d !in x.waiters[n]
    {
      if d in x.waiters[n] {
        WaiterOwnerCounted(x, n, d);
      }
    }
    AttachedSomewhere(x, d);
  }

  lemma WaiterOwnerCounted(x: Sems, m: Block, d: Block)
    requires d in x.waiters[m]
    ensures x.descs[d].owner in WaiterBag(x)
  {
    var i :| 0 <= i < |x.waiters[m]| && x.waiters[m][i] == d;
    assert WaiterPcbs(x)[m][i] == x.descs[d].owner;
    SumContains(WaiterPcbs(x), m);
    assert x.descs[d].owner in multiset(WaiterPcbs(x)[m]);
  }

  lemma AttachedSomewhere(x: Sems, d: Block)
    requires Conserved(x) && Linked(x) && d !in x.freeDescs && forall n: Block :: d !in x.waiters[n]
    ensures d in x.attached[x.descs[d].sem] && x.descs[d].sem in x.semList
  {
    assert DescBag(x)[d] == 1 && multiset(x.freeDescs)[d] == 0;
    if d in Sum(x.waiters) {
      var n := SumMember(x.waiters, d);
    }
    var m := SumMember(x.attached, d);
    assert m !in x.freeSems;
    assert m !in multiset(x.freeSems);
    assert SemBag(x)[m] == 1;
    assert m in multiset(x.semList);
  }

  /** A descriptor of a process is on one of the two lists of its semaphore. */
  lemma OwnedSomewhere(x: Sems, r: Block, d: Block)
    requires Conserved(x) && Linked(x) && d in x.owned[r]
    ensures x.descs[d].owner == r
    ensures d in x.attached[x.descs[d].sem] || d in x.waiters[x.descs[d].sem]
  {
    ListApart(x, r);
    assert d !in multiset(x.freeDescs);
    assert DescBag(x)[d] == 1;
    if d in Sum(x.waiters) {
      var n := SumMember(x.waiters, d);
    } else {
      var n := SumMember(x.attached, d);
    }
  }

  /** Lists of descriptors have no duplicates; those of processes have no free ones. */
  lemma ListApart(x: Sems, r: Block)
    requires Conserved(x)
    ensures NoDuplicates(x.owned[r]) && forall d :: d in x.owned[r] ==> d !in x.freeDescs
  {
    assert forall d: Block :: OwnedBag(x)[d] <= 1;
    ListsApart<Block>(x.freeDescs, x.owned, r);
  }

  lemma FreeDescriptor(x: Sems, d: Block)
    requires Conserved(x) && d in x.freeDescs
    ensures forall n: Block :: d !in x.attached[n] && d !in x.waiters[n] && d !in x.owned[n]
  {
    assert d in multiset(x.freeDescs) && DescBag(x)[d] == 1 && OwnedBag(x)[d] == 1;
    forall n: Block
      ensures d !in x.attached[n] && d !in x.waiters[n] && d !in x.owned[n]
    {
      SumContains(x.attached, n);
      SumContains(x.waiters, n);
      SumContains(x.owned, n);
      assert d !in multiset(x.attached[n]) && d !in multiset(x.waiters[n]) && d !in multiset(x.owned[n]);
    }
  }

  // ---- what stays the same when only counts, histories or descriptors off the wait lists change

  lemma SameWaiterPcbs(x: Sems, y: Sems)
    requires y.waiters == x.waiters
    requires forall m: Block, d :: d in x.waiters[m] ==> y.descs[d].owner == x.descs[d].owner
    ensures WaiterPcbs(y) == WaiterPcbs(x)
  {
    forall m | 0 <= m < MAX_NUM_PROCESSES
      ensures WaiterPcbs(y)[m] == WaiterPcbs(x)[m]
    {
      assert Owners(y, y.waiters[m]) == Owners(x, x.waiters[m]);
    }
  }

  lemma SameLaw(x: Sems, y: Sems, m: Block)
    requires Law(x, m)
    requires y.counts[m] == x.counts[m] && y.waiters[m] == x.waiters[m] && y.history[m] == x.history[m]
    requires forall d :: d in x.waiters[m] ==> y.descs[d].owner == x.descs[d].owner
    ensures Law(y, m)
  {
    assert Owners(y, y.waiters[m]) == Owners(x, x.waiters[m]);
  }

  lemma SameDescBag(x: Sems, y: Sems)
    requires y.freeDescs == x.freeDescs
    requires Sum(y.attached) + Sum(y.waiters) == Sum(x.attached) + Sum(x.waiters)
    ensures DescBag(y) == DescBag(x)
  {
    hide Sum;
    var free := multiset(x.freeDescs);
    assert DescBag(y) == free + (Sum(y.attached) + Sum(y.waiters));
    assert DescBag(x) == free + (Sum(x.attached) + Sum(x.waiters));
  }

  // ---- wait

  lemma AcquireKeeps(x: Sems, m: Block, r: Block)
    requires SemInv(x) && m in x.semList && x.counts[m] > 0
    ensures SemInv(Acquire(x, m, r)) && WaiterBag(Acquire(x, m, r)) == WaiterBag(x)
    ensures Disciplined(x, m) ==> Disciplined(Acquire(x, m, r), m)
  {
    var y := Acquire(x, m, r);
    assert DescBag(y) == DescBag(x) && OwnedBag(y) == OwnedBag(x) && SemBag(y) == SemBag(x);
    SameWaiterPcbs(x, y);
    forall n | n in y.semList
      ensures Law(y, n)
    {
      if n != m { SameLaw(x, y, n); } else { assert Owners(y, y.waiters[m]) == Owners(x, x.waiters[m]); }
    }
  }

  /** A descriptor moves from the idle list of its semaphore to the end of the wait list. */
  lemma EnqueueKeepsBags(x: Sems, m: Block, d: Block)
    requires d in x.attached[m]
    ensures DescBag(Enqueue(x, m, d)) == DescBag(x)
    ensures WaiterBag(Enqueue(x, m, d)) == WaiterBag(x) + multiset{x.descs[d].owner}
  {
    hide Sum;
    RemoveBag(x.attached[m], d);
    SumMoves(x.attached, x.waiters, m, Remove(x.attached[m], d), d);
    SameDescBag(x, Enqueue(x, m, d));
    EnqueuedPcbs(x, m, d);
    SumGains(WaiterPcbs(x), m, x.descs[d].owner);
  }

  lemma EnqueuedPcbs(x: Sems, m: Block, d: Block)
    ensures WaiterPcbs(Enqueue(x, m, d)) == WaiterPcbs(x)[m := WaiterPcbs(x)[m] + [x.descs[d].owner]]
  {
    var y := Enqueue(x, m, d);
    assert Owners(y, y.waiters[m]) == Owners(x, x.waiters[m]) + [x.descs[d].owner];
    forall n: Block | n != m ensures Owners(y, y.waiters[n]) == Owners(x, x.waiters[n]) { }
  }

  lemma EnqueueKeepsLinks(x: Sems, m: Block, d: Block)
    requires Linked(x) && d in x.attached[m]
    ensures Linked(Enqueue(x, m, d))
  {
    RemoveSubset(x.attached[m], d);
  }

  lemma RemoveSubset(l: seq<Block>, x: Block)
    ensures forall y :: y in Remove(l, x) ==> y in l
  {
    if x in l {
      var k := RemoveSplits(l, x);
    } else {
      RemoveAbsent(l, x);
    }
  }

  lemma EnqueueKeeps(x: Sems, m: Block, d: Block)
    requires SemInv(x) && m in x.semList && x.counts[m] == 0 && d in x.attached[m]
    ensures SemInv(Enqueue(x, m, d))
  {
    var y := Enqueue(x, m, d);
    EnqueueKeepsBags(x, m, d);
    EnqueueKeepsLinks(x, m, d);
    assert OwnedBag(y) == OwnedBag(x) && SemBag(y) == SemBag(x);
    forall n | n in y.semList
      ensures Law(y, n)
    {
      if n != m {
        SameLaw(x, y, n);
      } else {
        assert Owners(y, y.waiters[m]) == Owners(x, x.waiters[m]) + [x.descs[d].owner];
      }
    }
  }

  // ---- post

  lemma ReleaseKeeps(x: Sems, m: Block, r: Block)
    requires SemInv(x) && m in x.semList
    ensures var y := Release(x, m, r);
            && Conserved(y) && Linked(y) && WaiterBag(y) == WaiterBag(x)
            && (forall n :: n in y.semList && n != m ==> Law(y, n))
            && (x.waiters[m] == [] ==> Law(y, m))
            && Owners(y, y.waiters[m]) == Owners(x, x.waiters[m])
    ensures Disciplined(x, m) && r in x.history[m].holders ==> Disciplined(Release(x, m, r), m)
  {
    var y := Release(x, m, r);
    assert DescBag(y) == DescBag(x) && OwnedBag(y) == OwnedBag(x) && SemBag(y) == SemBag(x);
    SameWaiterPcbs(x, y);
    assert Owners(y, y.waiters[m]) == Owners(x, x.waiters[m]);
    forall n | n in y.semList && n != m
      ensures Law(y, n)
    {
      SameLaw(x, y, n);
    }
    var h := x.history[m].holders;
    if r in h {
      assert h == (h - multiset{r}) + multiset{r};
    }
  }

  /** The wake-up moves the first waiter's descriptor to the idle list of its semaphore. */
  lemma DequeueKeepsBags(y: Sems, m: Block)
    requires y.waiters[m] != []
    ensures var z := Dequeue(y, m);
            DescBag(z) == DescBag(y) && OwnedBag(z) == OwnedBag(y) && SemBag(z) == SemBag(y)
  {
    hide Sum;
    var z := Dequeue(y, m);
    PopFront(y.waiters[m]);
    SumMoves(y.waiters, y.attached, m, y.waiters[m][1..], y.waiters[m][0]);
    assert Sum(z.attached) + Sum(z.waiters) == Sum(z.waiters) + Sum(z.attached);
    assert Sum(y.attached) + Sum(y.waiters) == Sum(y.waiters) + Sum(y.attached);
    SameDescBag(y, z);
  }

  /** The process woken is one waiter less. */
  lemma DequeueFreesWaiter(y: Sems, m: Block)
    requires y.waiters[m] != []
    ensures WaiterBag(y) == WaiterBag(Dequeue(y, m)) + multiset{y.descs[y.waiters[m][0]].owner}
  {
    hide Sum, WaiterPcbs;
    var q, rest := y.descs[y.waiters[m][0]].owner, Owners(Dequeue(y, m), y.waiters[m][1..]);
    DequeuedPcbs(y, m);
    PopFront([q] + rest);
    SumLoses(WaiterPcbs(y), m, rest, q);
  }

  lemma DequeuedPcbs(y: Sems, m: Block)
    requires y.waiters[m] != []
    ensures var z := Dequeue(y, m);
            var rest := Owners(z, y.waiters[m][1..]);
            && |WaiterPcbs(y)| == MAX_NUM_PROCESSES
            && WaiterPcbs(y)[m] == [y.descs[y.waiters[m][0]].owner] + rest
            && WaiterPcbs(z) == WaiterPcbs(y)[m := rest]
  {
    var z := Dequeue(y, m);
    forall n: Block | n != m ensures Owners(z, z.waiters[n]) == Owners(y, y.waiters[n]) { }
  }

  lemma DequeueKeepsLinks(y: Sems, m: Block)
    requires Linked(y) && y.waiters[m] != []
    ensures Linked(Dequeue(y, m))
  {
    assert y.waiters[m][0] in y.waiters[m];
    assert forall d :: d in y.waiters[m][1..] ==> d in y.waiters[m];
  }

  /** The wake-up restores the law a post alone would break. */
  lemma DequeueRestoresLaw(x: Sems, m: Block, r: Block)
    requires Law(x, m) && x.waiters[m] != []
    ensures Law(Dequeue(Release(x, m, r), m), m)
  {
    var y := Release(x, m, r);
    var z := Dequeue(y, m);
    assert Owners(x, x.waiters[m]) == [x.descs[x.waiters[m][0]].owner] + Owners(z, z.waiters[m]);
  }

  lemma DequeueKeeps(x: Sems, m: Block, r: Block)
    requires SemInv(x) && m in x.semList && x.waiters[m] != []
    ensures SemInv(Dequeue(Release(x, m, r), m))
    ensures var q := x.descs[x.waiters[m][0]].owner;
            WaiterBag(x) == WaiterBag(Dequeue(Release(x, m, r), m)) + multiset{q}
  {
    var y := Release(x, m, r);
    var z := Dequeue(y, m);
    ReleaseKeeps(x, m, r);
    DequeueKeepsBags(y, m);
    DequeueFreesWaiter(y, m);
    DequeueKeepsLinks(y, m);
    DequeueRestoresLaw(x, m, r);
    forall n | n in z.semList
      ensures Law(z, n)
    {
      if n != m { SameLaw(y, z, n); }
    }
  }

  lemma DequeueKeepsDiscipline(x: Sems, m: Block, r: Block)
    requires Disciplined(x, m) && r in x.history[m].holders && x.waiters[m] != []
    ensures Disciplined(Dequeue(Release(x, m, r), m), m)
  {
    var h := x.history[m].holders;
    assert h == (h - multiset{r}) + multiset{r};
  }

  // ---- open and close

  lemma CreateKeeps(x: Sems, id: int, count: int)
    requires SemInv(x) && x.freeSems != [] && count >= 0
    ensures var y := Create(x, id, count);
            && SemInv(y) && WaiterBag(y) == WaiterBag(x) && x.freeSems[0] in y.semList
            && x.freeSems[0] !in x.semList && Disciplined(y, x.freeSems[0])
  {
    var y, m := Create(x, id, count), x.freeSems[0];
    CreateKeepsBags(x, id, count);
    SameWaiterPcbs(x, y);
    forall n | n in y.semList
      ensures Law(y, n)
    {
      if n != m {
        assert n in x.semList;
        SameLaw(x, y, n);
      }
    }
  }

  lemma CreateKeepsBags(x: Sems, id: int, count: int)
    requires Conserved(x) && Linked(x) && x.freeSems != []
    ensures var y := Create(x, id, count);
            && DescBag(y) == DescBag(x) && OwnedBag(y) == OwnedBag(x) && SemBag(y) == SemBag(x)
            && x.freeSems[0] !in x.semList
  {
    hide Sum, Exactly;
    var m := x.freeSems[0];
    assert m in x.freeSems && x.attached[m := []] == x.attached;
    PopFront(x.freeSems);
    if m in x.semList {
      ListedNotFree(x, m);
    }
  }

  lemma AttachKeepsBags(k: Kern, m: Block)
    requires k.p.running.Ref? && k.x.freeDescs != []
    ensures var y := Attach(k, m).x;
            DescBag(y) == DescBag(k.x) && OwnedBag(y) == OwnedBag(k.x) && SemBag(y) == SemBag(k.x)
  {
    hide Sum;
    SumTakes(k.x.freeDescs, k.x.attached, m);
    SumTakes(k.x.freeDescs, k.x.owned, k.p.running.p);
  }

  lemma AttachKeeps(k: Kern, m: Block)
    requires SemInv(k.x) && k.p.running.Ref? && m in k.x.semList
    ensures SemInv(Attach(k, m).x) && WaiterBag(Attach(k, m).x) == WaiterBag(k.x)
  {
    hide Exactly, DescBag, OwnedBag, SemBag, Sum;
    if k.x.freeDescs != [] {
      AttachKeepsBags(k, m);
      AttachKeepsLinks(k, m);
      AttachKeepsLaws(k, m);
    }
  }

  lemma AttachKeepsLinks(k: Kern, m: Block)
    requires SemInv(k.x) && k.p.running.Ref? && m in k.x.semList && k.x.freeDescs != []
    ensures Linked(Attach(k, m).x)
  {
    hide Exactly, Laws, DescBag, OwnedBag, SemBag;
    assert k.x.freeDescs[0] in k.x.freeDescs;
    FreeDescriptor(k.x, k.x.freeDescs[0]);
    ListedNotFree(k.x, m);
  }

  lemma AttachKeepsLaws(k: Kern, m: Block)
    requires SemInv(k.x) && k.p.running.Ref? && k.x.freeDescs != []
    ensures Laws(Attach(k, m).x) && WaiterBag(Attach(k, m).x) == WaiterBag(k.x)
  {
    hide Exactly, Linked, Law, DescBag, OwnedBag, SemBag, Sum;
    var x, y := k.x, Attach(k, m).x;
    assert x.freeDescs[0] in x.freeDescs;
    FreeDescriptor(x, x.freeDescs[0]);
    SameWaiterPcbs(x, y);
    forall n | n in y.semList
      ensures Law(y, n)
    {
      SameLaw(x, y, n);
    }
  }

  lemma ListedNotFree(x: Sems, m: Block)
    requires Conserved(x) && m in x.semList
    ensures m !in x.freeSems
  {
    assert SemBag(x)[m] == 1 && m in multiset(x.semList);
    assert m !in multiset(x.freeSems);
  }

  lemma DetachKeepsBags(x: Sems, r: Block, d: Block)
    requires d in x.owned[r] && d in x.attached[x.descs[d].sem]
    ensures var y := Detach(x, r, d);
            DescBag(y) == DescBag(x) && OwnedBag(y) == OwnedBag(x) && SemBag(y) == SemBag(x)
  {
    hide Sum, Remove;
    SumReturns(x.freeDescs, x.owned, r, d);
    SumReturns(x.freeDescs, x.attached, x.descs[d].sem, d);
  }

  lemma DetachKeeps(x: Sems, r: Block, d: Block)
    requires SemInv(x) && d in x.owned[r] && d in x.attached[x.descs[d].sem]
    ensures SemInv(Detach(x, r, d)) && WaiterBag(Detach(x, r, d)) == WaiterBag(x)
  {
    var y := Detach(x, r, d);
    DetachKeepsBags(x, r, d);
    RemoveSubset(x.owned[r], d);
    RemoveSubset(x.attached[x.descs[d].sem], d);
    SameWaiterPcbs(x, y);
    forall n | n in y.semList
      ensures Law(y, n)
    {
      SameLaw(x, y, n);
    }
    assert Linked(y);
  }

  lemma DestroyKeeps(x: Sems, m: Block)
    requires SemInv(x) && m in x.semList && x.attached[m] == [] && x.waiters[m] == []
    ensures SemInv(Destroy(x, m)) && WaiterBag(Destroy(x, m)) == WaiterBag(x)
  {
    var y := Destroy(x, m);
    RemoveBag(x.semList, m);
    RemoveSubset(x.semList, m);
    assert DescBag(y) == DescBag(x) && OwnedBag(y) == OwnedBag(x) && SemBag(y) == SemBag(x);
    SameWaiterPcbs(x, y);
    forall n | n in y.semList
      ensures Law(y, n)
    {
      SameLaw(x, y, n);
    }
  }

  /** The count a semaphore is created with is the one asked for, unless the conversions change it: it is
      negative, against the law, exactly when bit 31 of the argument is set. */
  lemma InitialCountIff(count: int)
    ensures InitialCount(count) >= 0 <==> count % 0x1_0000_0000 < 0x8000_0000
    ensures 0 <= count < 0x8000_0000 <==> InitialCount(count) == count >= 0
  {
    if 0 <= count < 0x8000_0000 {
      assert count % 0x1_0000_0000 == count;
    }
  }
}
