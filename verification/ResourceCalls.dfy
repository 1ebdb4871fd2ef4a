/** What each resource call answers and changes, told by its arguments and the state before. */
module ResourceCalls {
  import opened Bags
  import opened Timers
  import opened Processes
  import opened Resources
  import opened ResourceLaws

  /** r is the resource with this id; there is at most one. */
  ghost predicate Is(s: Registry, id: int, r: Block) {
    r in s.resList && s.ids[r] == id
  }

  lemma ByIdIs(s: Registry, id: int)
    requires RegInv(s)
    ensures forall r :: Is(s, id, r) <==> ById(s, s.resList, id) == Ref(r)
  {
    ByIdFinds(s, s.resList, id);
  }

  // ---- open

  /** The error of opening resource r, or 0. */
  function Refusal(s: Registry, r: Block, kind: int, excl: bool): int {
    if s.types[r] != kind then ERESOURCEOPEN
    else if excl && s.ptrsOf[r] != [] then ERESOURCENOEXCL
    else if s.freeDescs == [] then ERESOURCENOFD
    else 0
  }

  /** Process p has one descriptor more, its last, for r, with the next fd; so has r, and the two blocks point at each
      other. */
  ghost predicate Opened(s: Registry, t: Registry, p: Block, r: Block) {
    s.freeDescs != [] && s.freePtrs != [] &&
    var d, x := s.freeDescs[0], s.freePtrs[0];
    t == s.(freeDescs := s.freeDescs[1..], descs := s.descs[d := Desc(p, r, s.lastFd[p], x)],
            owned := s.owned[p := s.owned[p] + [d]], freePtrs := s.freePtrs[1..], pointee := s.pointee[x := d],
            ptrsOf := s.ptrsOf[r := s.ptrsOf[r] + [x]], lastFd := s.lastFd[p := s.lastFd[p] + 1])
  }

  /** A new resource, last in the list. */
  ghost predicate Made(s: Registry, t: Registry, r: Block, id: int, kind: int) {
    && [r] + t.freeRes == s.freeRes
    && t == s.(freeRes := t.freeRes, ids := s.ids[r := id], types := s.types[r := kind], resList := s.resList + [r])
  }

  /** Without DSOS_CREATE a missing resource is an error, and with it an existing one; then come the wrong type, the
      exclusive open of a resource in use, and the lack of descriptors. An error changes nothing, except that a
      resource just made stays when there is no descriptor for it. Otherwise the fd returned is the process's next. */
  lemma OpenOutcome(s: Registry, p: Block, id: int, kind: int, mode: int)
    requires RegInv(s) && CanCreate(s, id, mode)
    ensures var (t, ret) := Open(s, p, id, kind, mode);
            && (forall r :: Is(s, id, r) && CreateSet(mode) ==> t == s && ret == ERESOURCECREATE)
            && ((forall r :: !Is(s, id, r)) && !CreateSet(mode) ==> t == s && ret == ERESOURCEOPEN)
            && (forall r :: Is(s, id, r) && !CreateSet(mode) ==>
                  if Refusal(s, r, kind, ExclSet(mode)) != 0 then t == s && ret == Refusal(s, r, kind, ExclSet(mode))
                  else Opened(s, t, p, r) && ret == s.lastFd[p])
            && ((forall r :: !Is(s, id, r)) && CreateSet(mode) ==>
                  exists r, y :: && Made(s, y, r, id, kind)
                                 && if s.freeDescs == [] then t == y && ret == ERESOURCENOFD
                                    else Opened(y, t, p, r) && ret == s.lastFd[p])
  {
    ByIdIs(s, id);
    PoolsInStep(s);
    hide Is, ById;
    if (forall r :: !Is(s, id, r)) && CreateSet(mode) {
      var r, y := s.freeRes[0], NewResource(s, id, kind);
      FreeHasNone(s);
      assert Made(s, y, r, id, kind);
    }
    hide RegInv;
  }

  lemma FreeHasNone(s: Registry)
    requires RegInv(s) && s.freeRes != []
    ensures s.ptrsOf[s.freeRes[0]] == []
  {
    ResApart(s);
  }

  // ---- close, destroy

  /** A close through an fd of no descriptor is an error and changes nothing. Any other takes the descriptor with that
      fd from the lists of the process and of the resource, and gives both blocks back; fds are not reused. */
  lemma CloseOutcome(s: Registry, p: Block, fd: int)
    requires RegInv(s)
    ensures var (t, ret) := Close(s, p, fd);
            && ((forall d :: d in s.owned[p] ==> s.descs[d].fd != fd) ==> t == s && ret == ERESOURCECLOSE)
            && forall d :: d in s.owned[p] && s.descs[d].fd == fd ==>
                 var r, x := s.descs[d].resource, s.descs[d].ptr;
                 && ret == 0 && WithoutOne<Block>(s.owned[p], t.owned[p], d)
                 && WithoutOne<Block>(s.ptrsOf[r], t.ptrsOf[r], x)
                 && t == s.(owned := s.owned[p := t.owned[p]], ptrsOf := s.ptrsOf[r := t.ptrsOf[r]],
                            freeDescs := [d] + s.freeDescs, freePtrs := [x] + s.freePtrs)
  {
    var (t, ret) := Close(s, p, fd);
    ByFdFinds(s, s.owned[p], fd);
    forall d | d in s.owned[p] && s.descs[d].fd == fd
      ensures ByFd(s, s.owned[p], fd) == Ref(d) && s.descs[d].ptr in s.ptrsOf[s.descs[d].resource]
    {
      FdNames(s, p, fd, d);
    }
    hide RegInv;
    var d := ByFd(s, s.owned[p], fd);
    if d.Ref? {
      RemovesOne<Block>(s.owned[p], d.p);
      RemovesOne<Block>(s.ptrsOf[s.descs[d.p].resource], s.descs[d.p].ptr);
    }
  }

  /** Destroying takes a resource without descriptors out of the list; with some it is in use, and without the resource
      the error is that of a failed close. */
  lemma DestroyOutcome(s: Registry, id: int)
    requires RegInv(s)
    ensures var (t, ret) := Destroy(s, id);
            && ((forall r :: !Is(s, id, r)) ==> t == s && ret == ERESOURCECLOSE)
            && forall r: Block :: Is(s, id, r) ==>
                 if s.ptrsOf[r] != [] then t == s && ret == ERESOURCEINUSE
                 else && ret == 0 && WithoutOne<Block>(s.resList, t.resList, r)
                      && t == s.(resList := t.resList, freeRes := [r] + s.freeRes)
  {
    ByIdIs(s, id);
    var found := ById(s, s.resList, id);
    if found.Ref? {
      assert Is(s, id, found.p);
      RemovesOne<Block>(s.resList, found.p);
    }
    hide RegInv;
  }
}
