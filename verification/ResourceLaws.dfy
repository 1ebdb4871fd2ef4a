/** What every resource call keeps, and what fds mean over whole runs. */
module ResourceLaws {
  import opened Bags
  import opened Timers
  import opened Processes
  import opened Resources

  ghost function ResBag(s: Registry): multiset<Block> {
    multiset(s.freeRes) + multiset(s.resList)
  }

  ghost function PtrBag(s: Registry): multiset<Block> {
    multiset(s.freePtrs) + Sum<Block>(s.ptrsOf)
  }

  /** Every resource block is free or listed, every pointer block free or in one resource's list, once; the
      two descriptor pools move in step. */
  ghost predicate Placed(s: Registry) {
    && Exactly(ResBag(s), MAX_NUM_PROCESSES)
    && Exactly(PtrBag(s), MAX_NUM_PROCESSES)
    && s.freeDescs == s.freePtrs
  }

  /** A resource in the list has its own id; the others have no descriptors. */
  ghost predicate Listed(s: Registry) {
    && (forall r, q :: r in s.resList && q in s.resList && s.ids[r] == s.ids[q] ==> r == q)
    && (forall r: Block :: s.ptrsOf[r] != [] ==> r in s.resList)
  }

  /** Descriptors and pointers in use point at each other, at the same index in the two pools. */
  ghost predicate Mutual(s: Registry) {
    forall r: Block, x :: x in s.ptrsOf[r] ==> s.pointee[x] == x && s.descs[x].ptr == x && s.descs[x].resource == r
  }

  /** The descriptors of a process are its own, each in the list of its resource. */
  ghost predicate Owned(s: Registry) {
    && (forall p: Block, d :: d in s.owned[p] ==> s.descs[d].owner == p && d in s.ptrsOf[s.descs[d].resource])
    && (forall p: Block :: NoDuplicates(s.owned[p]))
  }

  ghost predicate Increasing(descs: DescTable, l: seq<Block>) {
    forall i, j :: 0 <= i < j < |l| ==> descs[l[i]].fd < descs[l[j]].fd
  }

  /** fds are increasing along the list of a process, and last_fd is beyond them. */
  ghost predicate Fds(s: Registry) {
    && (forall p: Block :: Increasing(s.descs, s.owned[p]))
    && (forall p: Block, d :: d in s.owned[p] ==> 0 <= s.descs[d].fd < s.lastFd[p])
  }

  ghost predicate RegInv(s: Registry) {
    Placed(s) && Listed(s) && Mutual(s) && Owned(s) && Fds(s) && forall p: Block :: s.lastFd[p] >= 0
  }

  /** The two descriptor pools have the same blocks free, in the same order. */
  lemma PoolsInStep(s: Registry)
    requires RegInv(s)
    ensures s.freeDescs == s.freePtrs
  {
  }

  // ---- lookups

  lemma {:induction false} ByIdFinds(s: Registry, rs: seq<Block>, id: int)
    ensures ById(s, rs, id).Ref? ==> ById(s, rs, id).p in rs && s.ids[ById(s, rs, id).p] == id
    ensures ById(s, rs, id).Null? ==> forall r :: r in rs ==> s.ids[r] != id
  {
    if rs != [] && s.ids[rs[0]] != id {
      ByIdFinds(s, rs[1..], id);
      assert forall r :: r in rs ==> r == rs[0] || r in rs[1..];
    }
  }

  lemma {:induction false} ByFdFinds(s: Registry, ds: seq<Block>, fd: int)
    ensures ByFd(s, ds, fd).Ref? ==> ByFd(s, ds, fd).p in ds && s.descs[ByFd(s, ds, fd).p].fd == fd
    ensures ByFd(s, ds, fd).Null? ==> forall d :: d in ds ==> s.descs[d].fd != fd
  {
    if ds != [] && s.descs[ds[0]].fd != fd {
      ByFdFinds(s, ds[1..], fd);
      assert forall d :: d in ds ==> d == ds[0] || d in ds[1..];
    }
  }

  /** An fd names at most one descriptor of a process. */
  lemma FdNames(s: Registry, p: Block, fd: int, d: Block)
    requires RegInv(s)
    ensures ByFd(s, s.owned[p], fd) == Ref(d) <==> d in s.owned[p] && s.descs[d].fd == fd
  {
    ByFdFinds(s, s.owned[p], fd);
    if d in s.owned[p] && s.descs[d].fd == fd {
      assert Increasing(s.descs, s.owned[p]);
      var e := ByFd(s, s.owned[p], fd).p;
      var i :| 0 <= i < |s.owned[p]| && s.owned[p][i] == d;
      var j :| 0 <= j < |s.owned[p]| && s.owned[p][j] == e;
    }
  }

  lemma PtrsApart(s: Registry, r: Block)
    requires Placed(s)
    ensures NoDuplicates(s.ptrsOf[r]) && NoDuplicates(s.freePtrs)
    ensures forall x :: x in s.ptrsOf[r] ==> x !in s.freePtrs
  {
    assert forall x: Block :: PtrBag(s)[x] <= 1;
    ListsApart<Block>(s.freePtrs, s.ptrsOf, r);
  }

  lemma ResApart(s: Registry)
    requires Placed(s)
    ensures NoDuplicates(s.resList) && forall r :: r in s.resList ==> r !in s.freeRes
  {
    forall x: Block
      ensures multiset(s.resList)[x] <= 1
      ensures x in s.resList ==> x !in s.freeRes
    {
      assert ResBag(s)[x] <= 1;
      assert x in s.resList <==> multiset(s.resList)[x] > 0;
      assert x in s.freeRes <==> multiset(s.freeRes)[x] > 0;
    }
    BagNoDuplicates<Block>(s.resList);
  }

  // ---- each step keeps the invariant

  /** What processes hold depends on these fields only. */
  lemma SameDescs(s: Registry, t: Registry)
    requires Mutual(s) && Owned(s) && Fds(s)
    requires t.descs == s.descs && t.owned == s.owned && t.lastFd == s.lastFd && t.ptrsOf == s.ptrsOf
    requires t.pointee == s.pointee
    ensures Mutual(t) && Owned(t) && Fds(t)
  {
  }

  lemma NewResourceLists(s: Registry, id: int, kind: int)
    requires Placed(s) && Listed(s) && s.freeRes != [] && ById(s, s.resList, id).Null?
    ensures var t := NewResource(s, id, kind); Placed(t) && Listed(t) && t.ptrsOf == s.ptrsOf
  {
    hide Exactly, ById, Sum;
    var t := NewResource(s, id, kind);
    ByIdFinds(s, s.resList, id);
    ResApart(s);
    assert s.freeRes[0] in s.freeRes;
    PopFront<Block>(s.freeRes);
    assert ResBag(t) == ResBag(s);
    assert t.ptrsOf == s.ptrsOf;
  }

  lemma NewResourceKeeps(s: Registry, id: int, kind: int)
    requires RegInv(s) && s.freeRes != [] && ById(s, s.resList, id).Null?
    ensures RegInv(NewResource(s, id, kind))
  {
    NewResourceLists(s, id, kind);
    hide Placed, Listed, Mutual, Owned, Fds, ById;
    SameDescs(s, NewResource(s, id, kind));
  }

  lemma AttachPlaced(s: Registry, p: Block, r: Block)
    requires Placed(s) && s.freeDescs != []
    ensures Placed(Attach(s, p, r))
  {
    var t := Attach(s, p, r);
    PopFront<Block>(s.freePtrs);
    SumGains<Block>(s.ptrsOf, r, s.freePtrs[0]);
    assert PtrBag(t) == PtrBag(s);
    assert ResBag(t) == ResBag(s);
  }

  /** The descriptor about to be used is in nobody's list. */
  lemma NextIsUnused(s: Registry)
    requires RegInv(s) && s.freeDescs != []
    ensures forall r: Block :: s.freeDescs[0] !in s.ptrsOf[r]
    ensures forall p: Block :: s.freeDescs[0] !in s.owned[p]
  {
    var d := s.freeDescs[0];
    forall r: Block
      ensures d !in s.ptrsOf[r]
    {
      PtrsApart(s, r);
    }
    assert d !in s.ptrsOf[s.descs[d].resource];
  }

  lemma AttachLinks(s: Registry, p: Block, r: Block)
    requires RegInv(s) && s.freeDescs != [] && r in s.resList
    ensures var t := Attach(s, p, r); Listed(t) && Mutual(t) && Owned(t)
  {
    hide Fds, Exactly, ResBag, PtrBag;
    NextIsUnused(s);
    AttachMembers(s, p, r);
  }

  lemma AttachMembers(s: Registry, p: Block, r: Block)
    requires s.freeDescs != [] && s.freePtrs != []
    ensures var t := Attach(s, p, r);
            && (forall q: Block, x :: x in t.ptrsOf[q] <==> x in s.ptrsOf[q] || (q == r && x == s.freePtrs[0]))
            && (forall q: Block, x :: x in t.owned[q] <==> x in s.owned[q] || (q == p && x == s.freeDescs[0]))
  {
  }

  lemma IncreasingAppend(descs: DescTable, descs': DescTable, l: seq<Block>, d: Block)
    requires Increasing(descs, l)
    requires forall x :: x in l ==> descs'[x] == descs[x] && descs[x].fd < descs'[d].fd
    ensures Increasing(descs', l) && Increasing(descs', l + [d])
  {
    assert forall i :: 0 <= i < |l| ==> l[i] in l;
  }

  lemma AttachFds(s: Registry, p: Block, r: Block)
    requires RegInv(s) && s.freeDescs != []
    ensures Fds(Attach(s, p, r))
  {
    var t := Attach(s, p, r);
    var d := s.freeDescs[0];
    NextIsUnused(s);
    hide Placed, Listed, Mutual, Owned, Increasing;
    forall q: Block
      ensures Increasing(t.descs, t.owned[q])
      ensures forall x :: x in t.owned[q] ==> 0 <= t.descs[x].fd < t.lastFd[q]
    {
      assert forall x :: x in s.owned[q] ==> x != d && 0 <= s.descs[x].fd < s.lastFd[q];
      if q == p {
        IncreasingAppend(s.descs, t.descs, s.owned[p], d);
      } else {
        IncreasingKept(s.descs, t.descs, s.owned[q]);
      }
    }
  }

  lemma IncreasingKept(descs: DescTable, descs': DescTable, l: seq<Block>)
    requires Increasing(descs, l) && forall x :: x in l ==> descs'[x] == descs[x]
    ensures Increasing(descs', l)
  {
    assert forall i :: 0 <= i < |l| ==> l[i] in l;
  }

  lemma AttachKeeps(s: Registry, p: Block, r: Block)
    requires RegInv(s) && s.freeDescs != [] && r in s.resList
    ensures RegInv(Attach(s, p, r))
  {
    AttachPlaced(s, p, r);
    AttachLinks(s, p, r);
    AttachFds(s, p, r);
  }

  lemma OpenKeeps(s: Registry, p: Block, id: int, kind: int, mode: int)
    requires RegInv(s) && CanCreate(s, id, mode)
    ensures RegInv(Open(s, p, id, kind, mode).0)
  {
    ByIdFinds(s, s.resList, id);
    var found := ById(s, s.resList, id);
    if CreateSet(mode) && found.Null? {
      NewResourceKeeps(s, id, kind);
      var c := NewResource(s, id, kind);
      if c.freeDescs != [] { AttachKeeps(c, p, s.freeRes[0]); }
    } else if found.Ref? && s.freeDescs != [] {
      AttachKeeps(s, p, found.p);
    }
  }

  lemma DetachPlaced(s: Registry, p: Block, d: Block)
    requires Placed(s) && s.descs[d].ptr == d && d in s.ptrsOf[s.descs[d].resource]
    ensures Placed(Detach(s, p, d))
  {
    var t := Detach(s, p, d);
    var r := s.descs[d].resource;
    RemoveBag<Block>(s.ptrsOf[r], d);
    SumLoses<Block>(s.ptrsOf, r, t.ptrsOf[r], d);
    assert PtrBag(t) == PtrBag(s);
    assert ResBag(t) == ResBag(s);
  }

  lemma DetachLinks(s: Registry, p: Block, d: Block)
    requires RegInv(s) && d in s.owned[p]
    ensures var t := Detach(s, p, d); Listed(t) && Mutual(t) && Owned(t)
  {
    var t := Detach(s, p, d);
    var r := s.descs[d].resource;
    PtrsApart(s, r);
    RemovedIsGone<Block>(s.owned[p], d);
    RemoveNoDuplicates<Block>(s.owned[p], d);
    RemovedIsGone<Block>(s.ptrsOf[r], d);
    assert forall q: Block, x :: x in t.ptrsOf[q] ==> x in s.ptrsOf[q];
    assert forall q: Block, x :: x in t.owned[q] ==> x in s.owned[q] && x != d;
  }

  lemma DetachFds(s: Registry, p: Block, d: Block)
    requires Owned(s) && Fds(s) && d in s.owned[p]
    ensures Fds(Detach(s, p, d))
  {
    var t := Detach(s, p, d);
    var k := RemoveSplits<Block>(s.owned[p], d);
    RemovedIsGone<Block>(s.owned[p], d);
    DetachIncreasing(s, p, d, k);
    hide Increasing, Remove;
    assert forall q: Block, x :: x in t.owned[q] ==> x in s.owned[q];
  }

  lemma DetachIncreasing(s: Registry, p: Block, d: Block, k: nat)
    requires Increasing(s.descs, s.owned[p]) && k < |s.owned[p]|
    requires Remove(s.owned[p], d) == s.owned[p][..k] + s.owned[p][k + 1..]
    ensures Increasing(s.descs, Remove(s.owned[p], d))
  {
    hide Remove;
    var l := Remove(s.owned[p], d);
    forall i, j | 0 <= i < j < |l|
      ensures s.descs[l[i]].fd < s.descs[l[j]].fd
    {
      var i', j' := if i < k then i else i + 1, if j < k then j else j + 1;
      assert l[i] == s.owned[p][i'] && l[j] == s.owned[p][j'];
    }
  }

  lemma DetachKeeps(s: Registry, p: Block, d: Block)
    requires RegInv(s) && d in s.owned[p]
    ensures RegInv(Detach(s, p, d))
  {
    DetachPlaced(s, p, d);
    DetachLinks(s, p, d);
    DetachFds(s, p, d);
  }

  lemma CloseKeeps(s: Registry, p: Block, fd: int)
    requires RegInv(s)
    ensures RegInv(Close(s, p, fd).0)
  {
    ByFdFinds(s, s.owned[p], fd);
    if ByFd(s, s.owned[p], fd).Ref? {
      DetachKeeps(s, p, ByFd(s, s.owned[p], fd).p);
    }
  }

  lemma DestroyLists(s: Registry, id: int)
    requires Placed(s) && Listed(s)
    ensures var t := Destroy(s, id).0; Placed(t) && Listed(t)
  {
    var t := Destroy(s, id).0;
    ByIdFinds(s, s.resList, id);
    var r := ById(s, s.resList, id);
    if r.Ref? && s.ptrsOf[r.p] == [] {
      ResApart(s);
      RemoveBag<Block>(s.resList, r.p);
      RemovedIsGone<Block>(s.resList, r.p);
      assert ResBag(t) == ResBag(s);
      assert PtrBag(t) == PtrBag(s);
    }
  }

  lemma DestroyKeeps(s: Registry, id: int)
    requires RegInv(s)
    ensures RegInv(Destroy(s, id).0)
  {
    DestroyLists(s, id);
    hide Placed, Listed, Mutual, Owned, Fds, ById;
    SameDescs(s, Destroy(s, id).0);
  }

  lemma {:induction false} ReleaseAllKeeps(s: Registry, p: Block)
    requires RegInv(s)
    ensures RegInv(ReleaseAll(s, p)) && ReleaseAll(s, p).owned[p] == []
    decreases |s.owned[p]|
  {
    hide RegInv;
    if s.owned[p] != [] {
      DetachKeeps(s, p, s.owned[p][0]);
      assert Remove(s.owned[p], s.owned[p][0]) == s.owned[p][1..];
      ReleaseAllKeeps(Detach(s, p, s.owned[p][0]), p);
    }
  }

  lemma NewProcessKeeps(s: Registry, p: Block)
    requires RegInv(s)
    ensures RegInv(NewProcess(s, p))
  {
    assert ResBag(NewProcess(s, p)) == ResBag(s) && PtrBag(NewProcess(s, p)) == PtrBag(s);
  }
}
