/** What the semaphore calls return, and whether the fd an open returns names what was opened. */
module SemaphoreCalls {
  import opened Bags
  import opened Timers
  import opened Processes
  import opened ProcessLaws
  import opened ProcessSteps
  import opened Semaphores
  import opened SemaphoreLaws
  import opened KernelRuns

  // ---- semPost and semWait

  function Returned(k: Kern): int
    requires k.p.running.Ref?
  {
    k.p.pcbs[k.p.running.p].retvalue
  }

  /** The post wakes somebody. */
  predicate Wakes(k: Kern, fd: int)
    requires k.p.running.Ref?
  {
    Lookup(k, fd).Ref? && k.x.waiters[k.x.descs[Lookup(k, fd).p].sem] != []
  }

  /** A post that wakes somebody returns whatever the caller's last call returned, an error included: semPost returns 0
      exactly when it finds the semaphore and, if it wakes somebody, that value happened to be 0. */
  lemma PostReturnsIff(k: Kern, fd: int)
    requires KernInv(k) && k.p.running.Ref?
    ensures SemPost(k, fd).p.running == k.p.running
    ensures Returned(SemPost(k, fd)) ==
            if Lookup(k, fd).Null? then ESEMPOST else if Wakes(k, fd) then Returned(k) else 0
    ensures Returned(SemPost(k, fd)) == 0 <==> Lookup(k, fd).Ref? && (Wakes(k, fd) ==> Returned(k) == 0)
  {
    LookupFacts(k, fd);
    if Lookup(k, fd).Ref? {
      assert Law(k.x, k.x.descs[Lookup(k, fd).p].sem);
    }
    hide KernInv;
  }

  /** And so it is with a wait that blocks: the process that a post lets go on is not told that it succeeded. */
  lemma WaitReturnsIff(k: Kern, fd: int)
    requires k.p.running.Ref? && (WouldBlock(k, fd) ==> k.p.ready != [])
    ensures var r := k.p.running.p; var value := SemWait(k, fd).p.pcbs[r].retvalue;
            && value == (if Lookup(k, fd).Null? then ESEMWAIT else if WouldBlock(k, fd) then Returned(k) else 0)
            && (value == 0 <==> Lookup(k, fd).Ref? && (WouldBlock(k, fd) ==> Returned(k) == 0))
  {
  }

  // ---- semOpen

  /** What opening needs. */
  predicate CanOpen(k: Kern, id: int, flags: int)
    requires k.p.running.Ref?
  {
    && k.x.lastFd[k.p.running.p] + 1 <= MAX_NUM_SEMDESCRIPTORS_PER_PROCESS && id >= 0 && k.x.freeDescs != []
    && if ById(k.x, k.x.semList, id).Ref? then !(CreateSet(flags) && ExclSet(flags)) else Creates(k, id, flags)
  }

  /** The fd returned is last_sem_fd. It names the new descriptor exactly when it is not negative and no descriptor the
      process has already, or its PCB had before, has that fd. */
  lemma OpenNamesIff(k: Kern, id: int, flags: int, count: int)
    requires KernInv(k) && k.p.running.Ref? && CanOpen(k, id, flags)
    ensures var t, r, d := SemOpen(k, id, flags, count), k.p.running.p, k.x.freeDescs[0];
            && t.p.running == k.p.running && Returned(t) == k.x.lastFd[r]
            && t.x.owned[r] == k.x.owned[r] + [d] && t.x.descs[d].sem in t.x.semList && t.x.ids[t.x.descs[d].sem] == id
            && (Lookup(t, Returned(t)) == Ref(d) <==>
                  Returned(t) >= 0 && forall e :: e in k.x.owned[r] ==> k.x.descs[e].fd != Returned(t))
  {
    var r, d := k.p.running.p, k.x.freeDescs[0];
    ByIdMember(k.x, k.x.semList, id);
    FreeDescriptor(k.x, d);
    hide KernInv;
    FirstWithFd(SemOpen(k, id, flags, count).x, k.x.owned[r], d, k.x.lastFd[r]);
  }

  lemma {:induction false} FirstWithFd(x: Sems, ds: seq<Block>, d: Block, fd: int)
    requires x.descs[d].fd == fd && d !in ds
    ensures ByFd(x, ds + [d], fd) == Ref(d) <==> forall e :: e in ds ==> x.descs[e].fd != fd
  {
    if ds == [] {
      assert ByFd(x, [d], fd) == Ref(d);
    } else {
      FirstWithFd(x, ds[1..], d, fd);
      assert (ds + [d])[1..] == ds[1..] + [d];
      assert forall e :: e in ds <==> e == ds[0] || e in ds[1..];
    }
  }

  /** An open makes a descriptor exactly when it can; otherwise it returns its error code. */
  lemma OpenSucceedsIff(k: Kern, id: int, flags: int, count: int)
    requires KernInv(k) && k.p.running.Ref?
    ensures var t, r := SemOpen(k, id, flags, count), k.p.running.p;
            && t.p.running == k.p.running
            && (t.x.owned[r] != k.x.owned[r] <==> CanOpen(k, id, flags))
            && Returned(t) == if CanOpen(k, id, flags) then k.x.lastFd[r] else ESEMOPEN
  {
    hide KernInv;
    if CanOpen(k, id, flags) {
      OpenNamesIff(k, id, flags, count);
    }
  }
}
