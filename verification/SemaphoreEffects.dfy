/** What each semaphore call does, told by its arguments and the state before: what the caller gets, who waits, who goes
    on, and that nothing else changes. */
module SemaphoreEffects {
  import opened Bags
  import opened Timers
  import opened Processes
  import opened Semaphores
  import opened SemaphoreLaws
  import opened KernelRuns
  import opened KernelCalls

  // ---- what an fd and an id mean

  /** The first of these descriptors with this fd. */
  ghost predicate FirstWith(x: Sems, ds: seq<Block>, fd: int, i: int) {
    0 <= i < |ds| && x.descs[ds[i]].fd == fd && forall j :: 0 <= j < i ==> x.descs[ds[j]].fd != fd
  }

  lemma {:induction false} ByFdIsFirst(x: Sems, ds: seq<Block>, fd: int) returns (i: nat)
    ensures if ByFd(x, ds, fd).Ref? then FirstWith(x, ds, fd, i) && ByFd(x, ds, fd).p == ds[i]
            else forall j :: 0 <= j < |ds| ==> x.descs[ds[j]].fd != fd
  {
    i := 0;
    if ds != [] && x.descs[ds[0]].fd != fd {
      i := ByFdIsFirst(x, ds[1..], fd);
      i := i + 1;
      assert forall j :: 0 < j < |ds| ==> ds[j] == ds[1..][j - 1];
    }
  }

  /** A call with this fd means the first of the caller's descriptors that has it, if it is one of 0..32, and none
      otherwise. */
  lemma LookupMeansFirst(k: Kern, fd: int)
    requires k.p.running.Ref?
    ensures var ds := k.x.owned[k.p.running.p];
            && (Lookup(k, fd).Ref? <==> 0 <= fd <= 32 && exists i :: FirstWith(k.x, ds, fd, i))
            && forall i :: 0 <= fd <= 32 && FirstWith(k.x, ds, fd, i) ==> Lookup(k, fd) == Ref(ds[i])
  {
    var i := ByFdIsFirst(k.x, k.x.owned[k.p.running.p], fd);
  }

  /** The first semaphore in the list with this id. */
  ghost predicate FirstNamed(x: Sems, id: int, i: int) {
    0 <= i < |x.semList| && x.ids[x.semList[i]] == id && forall j :: 0 <= j < i ==> x.ids[x.semList[j]] != id
  }

  lemma {:induction false} ByIdIsFirst(x: Sems, ms: seq<Block>, id: int) returns (i: nat)
    ensures if ById(x, ms, id).Ref?
            then i < |ms| && ById(x, ms, id).p == ms[i] && x.ids[ms[i]] == id
                 && forall j :: 0 <= j < i ==> x.ids[ms[j]] != id
            else forall j :: 0 <= j < |ms| ==> x.ids[ms[j]] != id
  {
    i := 0;
    if ms != [] && x.ids[ms[0]] != id {
      i := ByIdIsFirst(x, ms[1..], id);
      i := i + 1;
      assert forall j :: 0 < j < |ms| ==> ms[j] == ms[1..][j - 1];
    }
  }

  // ---- the caller

  /** The call is recorded, with its fd. */
  function Recorded(s: Proc, num: int, fd: int): Pcb
    requires s.running.Ref?
  {
    s.pcbs[s.running.p].(syscallNum := num, arg0 := fd)
  }

  /** The caller goes on, with this in its PCB; nothing else is different. */
  ghost predicate GoesOn(s: Proc, t: Proc, pcb: Pcb)
    requires s.running.Ref?
  {
    t == s.(pcbs := s.pcbs[s.running.p := pcb])
  }

  /** Recording the call does not change what an fd means. */
  lemma SameLookup(k: Kern, step: Step, fd: int)
    requires k.p.running.Ref?
    ensures Lookup(RecordCall(k, step), fd) == Lookup(k, fd) && RecordCall(k, step).x == k.x
  {
  }

  lemma Returns(s: Proc, value: int)
    requires s.running.Ref?
    ensures GoesOn(s, Return(s, value), s.pcbs[s.running.p].(retvalue := value))
  {
  }

  /** What is done after recording the call, seen from before. */
  lemma AfterRecording(s: Proc, n: Proc, pcb: Pcb, t: Proc, pcb': Pcb)
    requires s.running.Ref? && GoesOn(s, n, pcb)
    ensures n.running == s.running && n.ready == s.ready && n.pcbs[s.running.p] == pcb
    ensures GoesOn(n, t, pcb') ==> GoesOn(s, t, pcb')
  {
  }

  // ---- semWait

  /** r has taken one of the counts of m. */
  ghost predicate Took(x: Sems, y: Sems, m: Block, r: Block) {
    var h := x.history[m];
    y == x.(counts := x.counts[m := x.counts[m] - 1],
            history := x.history[m := h.(waits := h.waits + 1, holders := h.holders + multiset{r})])
  }

  /** r waits for m, last, its descriptor d being no longer idle. */
  ghost predicate Joined(x: Sems, y: Sems, m: Block, d: Block, r: Block) {
    y == x.(attached := x.attached[m := Remove(x.attached[m], d)], waiters := x.waiters[m := x.waiters[m] + [d]],
            history := x.history[m := x.history[m].(blocked := x.history[m].blocked + [r])])
  }

  /** The caller, as its status says still Running, goes to the end of the waiting list, and the first ready process
      runs. */
  ghost predicate Blocks(s: Proc, t: Proc, pcb: Pcb)
    requires s.running.Ref?
  {
    && SwitchedAway(s, t) && s.ready != []
    && t == s.(waiting := t.waiting, running := t.running, ready := t.ready, pcbs := s.pcbs[s.running.p := pcb])
  }

  lemma BlocksAfterRecording(s: Proc, n: Proc, pcb: Pcb, t: Proc)
    requires s.running.Ref? && GoesOn(s, n, pcb)
    ensures n.running == s.running
    ensures Blocks(n, t, pcb) ==> Blocks(s, t, pcb)
  {
  }

  /** The caller takes one of the semaphore's counts, or waits for one. An fd that names nothing is an error. */
  lemma WaitEffect(k: Kern, fd: int)
    requires KernInv(k) && Enabled(k, SemWaitCall(fd))
    ensures var t, d, pcb := Next(k, SemWaitCall(fd)), Lookup(k, fd), Recorded(k.p, CALL_SEMWAIT, fd);
            if d.Null? then GoesOn(k.p, t.p, pcb.(retvalue := ESEMWAIT)) && t.x == k.x
            else
              var m := k.x.descs[d.p].sem;
              if k.x.counts[m] > 0 then GoesOn(k.p, t.p, pcb.(retvalue := 0)) && Took(k.x, t.x, m, k.p.running.p)
              else Blocks(k.p, t.p, pcb) && Joined(k.x, t.x, m, d.p, k.p.running.p)
  {
    hide KernInv, Took, Joined, SemWait, Lookup, GoesOn, Blocks;
    var n, t, pcb := RecordCall(k, SemWaitCall(fd)), Next(k, SemWaitCall(fd)), Recorded(k.p, CALL_SEMWAIT, fd);
    RecordCallKeepsInv(k, SemWaitCall(fd));
    SameLookup(k, SemWaitCall(fd), fd);
    RecordsFd(k, SemWaitCall(fd), CALL_SEMWAIT);
    BlocksAfterRecording(k.p, n.p, pcb, t.p);
    AfterRecording(k.p, n.p, pcb, t.p, pcb.(retvalue := 0));
    AfterRecording(k.p, n.p, pcb, t.p, pcb.(retvalue := ESEMWAIT));
    Waits(n, fd);
    hide RecordCall;
  }

  lemma RecordsFd(k: Kern, step: Step, num: int)
    requires k.p.running.Ref?
    requires (step.SemWaitCall? && num == CALL_SEMWAIT) || (step.SemPostCall? && num == CALL_SEMPOST)
    ensures GoesOn(k.p, RecordCall(k, step).p, Recorded(k.p, num, step.fd))
  {
  }

  lemma Waits(k: Kern, fd: int)
    requires KernInv(k) && k.p.running.Ref? && (WouldBlock(k, fd) ==> k.p.ready != [])
    ensures var t, d, r := SemWait(k, fd), Lookup(k, fd), k.p.running.p;
            if d.Null? then GoesOn(k.p, t.p, k.p.pcbs[r].(retvalue := ESEMWAIT)) && t.x == k.x
            else
              var m := k.x.descs[d.p].sem;
              if k.x.counts[m] > 0 then GoesOn(k.p, t.p, k.p.pcbs[r].(retvalue := 0)) && Took(k.x, t.x, m, r)
              else Blocks(k.p, t.p, k.p.pcbs[r]) && Joined(k.x, t.x, m, d.p, r)
  {
    var d := Lookup(k, fd);
    LookupFacts(k, fd);
    hide KernInv, Took, Joined, Enqueue, Acquire, Lookup, GoesOn, Blocks, BlockOnSemaphore, Return;
    Returns(k.p, 0);
    Returns(k.p, ESEMWAIT);
    if d.Ref? {
      Taken(k.x, k.x.descs[d.p].sem, d.p, k.p.running.p);
      if k.p.ready != [] {
        SwitchesAway(k.p);
      }
    }
  }

  lemma SwitchesAway(s: Proc)
    requires s.running.Ref? && s.ready != []
    ensures Blocks(s, BlockOnSemaphore(s), s.pcbs[s.running.p])
  {
  }

  lemma Taken(x: Sems, m: Block, d: Block, r: Block)
    requires x.descs[d].owner == r
    ensures Took(x, Acquire(x, m, r), m, r) && Joined(x, Enqueue(x, m, d), m, d, r)
  {
    hide Remove;
  }

  // ---- semPost

  /** r has given m one count more. */
  ghost predicate Gave(x: Sems, y: Sems, m: Block, r: Block) {
    var h := x.history[m];
    y == x.(counts := x.counts[m := x.counts[m] + 1],
            history := x.history[m := h.(posts := h.posts + 1, holders := h.holders - multiset{r})])
  }

  /** r has handed the count to the first who waits for m, whose descriptor is idle again; the count stays as it was. */
  ghost predicate HandedOn(x: Sems, y: Sems, m: Block, r: Block) {
    x.waiters[m] != [] &&
    var e, h := x.waiters[m][0], x.history[m];
    var q := x.descs[e].owner;
    y == x.(attached := x.attached[m := x.attached[m] + [e]], waiters := x.waiters[m := x.waiters[m][1..]],
            history := x.history[m := h.(posts := h.posts + 1, waits := h.waits + 1, woken := h.woken + [q],
                                         holders := h.holders - multiset{r} + multiset{q})])
  }

  /** q goes from the waiting list to the end of the ready list, and the caller goes on. */
  ghost predicate LetsGo(s: Proc, t: Proc, q: Block, pcb: Pcb)
    requires s.running.Ref?
  {
    t == s.(waiting := Remove(s.waiting, q), ready := s.ready + [q], pcbs := s.pcbs[s.running.p := pcb])
  }

  lemma LetsGoAfterRecording(s: Proc, n: Proc, pcb: Pcb, t: Proc, q: Block)
    requires s.running.Ref? && GoesOn(s, n, pcb)
    ensures n.running == s.running
    ensures LetsGo(n, t, q, pcb) ==> LetsGo(s, t, q, pcb)
  {
    hide Remove;
  }

  /** A post makes the count one more, or lets the owner of the first waiting descriptor go on, if there is one; the
      caller's return value is then what it was. */
  lemma PostEffect(k: Kern, fd: int)
    requires KernInv(k) && k.p.running.Ref?
    ensures Enabled(k, SemPostCall(fd))
    ensures var t, d, pcb := Next(k, SemPostCall(fd)), Lookup(k, fd), Recorded(k.p, CALL_SEMPOST, fd);
            if d.Null? then GoesOn(k.p, t.p, pcb.(retvalue := ESEMPOST)) && t.x == k.x
            else
              var m := k.x.descs[d.p].sem;
              if k.x.waiters[m] == [] then GoesOn(k.p, t.p, pcb.(retvalue := 0)) && Gave(k.x, t.x, m, k.p.running.p)
              else LetsGo(k.p, t.p, k.x.descs[k.x.waiters[m][0]].owner, pcb) && HandedOn(k.x, t.x, m, k.p.running.p)
  {
    hide KernInv, Gave, HandedOn, SemPost, Lookup, GoesOn, LetsGo;
    var n, t, pcb := RecordCall(k, SemPostCall(fd)), Next(k, SemPostCall(fd)), Recorded(k.p, CALL_SEMPOST, fd);
    RecordCallKeepsInv(k, SemPostCall(fd));
    SameLookup(k, SemPostCall(fd), fd);
    RecordsFd(k, SemPostCall(fd), CALL_SEMPOST);
    AfterRecording(k.p, n.p, pcb, t.p, pcb.(retvalue := 0));
    AfterRecording(k.p, n.p, pcb, t.p, pcb.(retvalue := ESEMPOST));
    Posts(n, fd);
    hide RecordCall;
    if Lookup(k, fd).Ref? && k.x.waiters[k.x.descs[Lookup(k, fd).p].sem] != [] {
      var q := k.x.descs[k.x.waiters[k.x.descs[Lookup(k, fd).p].sem][0]].owner;
      LetsGoAfterRecording(k.p, n.p, pcb, t.p, q);
    }
  }

  lemma Posts(k: Kern, fd: int)
    requires KernInv(k) && k.p.running.Ref?
    ensures var t, d, r := SemPost(k, fd), Lookup(k, fd), k.p.running.p;
            if d.Null? then GoesOn(k.p, t.p, k.p.pcbs[r].(retvalue := ESEMPOST)) && t.x == k.x
            else
              var m := k.x.descs[d.p].sem;
              if k.x.waiters[m] == [] then GoesOn(k.p, t.p, k.p.pcbs[r].(retvalue := 0)) && Gave(k.x, t.x, m, r)
              else LetsGo(k.p, t.p, k.x.descs[k.x.waiters[m][0]].owner, k.p.pcbs[r]) && HandedOn(k.x, t.x, m, r)
  {
    var d := Lookup(k, fd);
    LookupFacts(k, fd);
    hide KernInv, Gave, HandedOn, Release, Dequeue, Lookup, GoesOn, LetsGo, WakeFromSemaphore, Return;
    Returns(k.p, 0);
    Returns(k.p, ESEMPOST);
    if d.Ref? {
      var m := k.x.descs[d.p].sem;
      Given(k.x, m, k.p.running.p);
      if k.x.waiters[m] != [] {
        Wakes(k.p, k.x.descs[k.x.waiters[m][0]].owner);
      }
    }
  }

  lemma Wakes(s: Proc, q: Block)
    requires s.running.Ref?
    ensures LetsGo(s, WakeFromSemaphore(s, q), q, s.pcbs[s.running.p])
  {
    hide Remove;
  }

  lemma Given(x: Sems, m: Block, r: Block)
    requires SemInv(x) && m in x.semList
    ensures var y := Release(x, m, r);
            && y.counts[m] > 0 && y.waiters == x.waiters && y.descs == x.descs && Gave(x, y, m, r)
            && (x.waiters[m] != [] ==> HandedOn(x, Dequeue(y, m), m, r))
  {
    assert Law(x, m);
    hide SemInv;
  }

  // ---- semClose

  /** The descriptor named goes: the caller has it no longer, it is free, and the caller's next fd is one less. The
      semaphore goes too if that was its last idle descriptor. */
  lemma CloseEffect(k: Kern, fd: int)
    requires KernInv(k) && Enabled(k, SemCloseCall(fd))
    ensures var t, d, pcb := Next(k, SemCloseCall(fd)), Lookup(k, fd), Recorded(k.p, CALL_SEMCLOSE, fd);
            if d.Null? then GoesOn(k.p, t.p, pcb.(retvalue := ESEMCLOSE)) && t.x == k.x
            else
              var m, r := k.x.descs[d.p].sem, k.p.running.p;
              var gone := Remove(k.x.attached[m], d.p) == [];
              && GoesOn(k.p, t.p, pcb.(retvalue := 0))
              && t.x == k.x.(owned := k.x.owned[r := Remove(k.x.owned[r], d.p)],
                             attached := k.x.attached[m := Remove(k.x.attached[m], d.p)],
                             freeDescs := [d.p] + k.x.freeDescs, lastFd := k.x.lastFd[r := k.x.lastFd[r] - 1],
                             semList := if gone then Remove(k.x.semList, m) else k.x.semList,
                             freeSems := if gone then [m] + k.x.freeSems else k.x.freeSems)
  {
    hide KernInv, Remove;
    SameLookup(k, SemCloseCall(fd), fd);
    hide Lookup;
  }

  // ---- semOpen

  /** The open gets as far as a semaphore: the next fd is in bounds, the id is not negative, and the semaphore is there
      and may be, or is not and may be made. */
  ghost predicate Gets(k: Kern, id: int, create: bool, excl: bool)
    requires k.p.running.Ref?
  {
    && k.x.lastFd[k.p.running.p] < 32 && id >= 0
    && if exists i :: FirstNamed(k.x, id, i) then !(create && excl) else create && k.x.freeSems != []
  }

  /** x with a semaphore m, in front of the free list, made with this id and count. */
  ghost predicate MadeWith(x: Sems, y: Sems, m: Block, id: int, count: int) {
    && [m] + y.freeSems == x.freeSems
    && y == x.(freeSems := y.freeSems, semList := x.semList + [m], ids := x.ids[m := id],
               counts := x.counts[m := count], history := y.history)
    && y.history == x.history[m := SemHistory(count, 0, 0, [], [], multiset{})]
  }

  /** x with one descriptor more, of r and m. */
  ghost predicate OneMore(x: Sems, y: Sems, r: Block, m: Block, fd: int) {
    x.freeDescs != [] && var d := x.freeDescs[0];
    y == x.(freeDescs := x.freeDescs[1..], descs := x.descs[d := SemDesc(r, m, fd)],
            owned := x.owned[r := x.owned[r] + [d]], attached := x.attached[m := x.attached[m] + [d]],
            lastFd := x.lastFd[r := fd + 1])
  }

  /** What an open finds or makes is m, with the list of semaphores as y has it. */
  ghost predicate FoundOrMade(x: Sems, y: Sems, m: Block, id: int, count: int) {
    if exists i :: FirstNamed(x, id, i) then y == x && exists i :: FirstNamed(x, id, i) && x.semList[i] == m
    else MadeWith(x, y, m, id, count % 0x1_0000_0000)
  }

  /** An open that gets as far as a semaphore, finding or making it, adds a descriptor for it to those of the caller and
      to its idle ones, and returns the fd, which is the number the caller was due. Without a free descriptor it fails,
      and a semaphore just made stays. Every other open fails and changes nothing. */
  lemma OpenEffect(k: Kern, id: int, flags: int, count: int) returns (m: Block, y: Sems)
    requires KernInv(k) && Enabled(k, SemOpenCall(id, flags, count))
    ensures var t, r, fd := Next(k, SemOpenCall(id, flags, count)), k.p.running.p, k.x.lastFd[k.p.running.p];
            var pcb := k.p.pcbs[r].(syscallNum := CALL_SEMOPEN, arg0 := id, arg1 := flags);
            if !Gets(k, id, CreateSet(flags), ExclSet(flags))
            then GoesOn(k.p, t.p, pcb.(retvalue := ESEMOPEN)) && t.x == k.x
            else
              && FoundOrMade(k.x, y, m, id, count)
              && if k.x.freeDescs == [] then GoesOn(k.p, t.p, pcb.(retvalue := ESEMOPEN)) && t.x == y
                 else GoesOn(k.p, t.p, pcb.(retvalue := fd)) && OneMore(y, t.x, r, m, fd)
  {
    hide KernInv, FirstNamed, SemOpen, FoundOrMade, OneMore, GoesOn;
    var step, fd := SemOpenCall(id, flags, count), k.x.lastFd[k.p.running.p];
    var n, t := RecordCall(k, step), Next(k, step);
    var pcb := k.p.pcbs[k.p.running.p].(syscallNum := CALL_SEMOPEN, arg0 := id, arg1 := flags);
    RecordCallKeepsInv(k, step);
    RecordsOpen(k, id, flags, count);
    AfterRecording(k.p, n.p, pcb, t.p, pcb.(retvalue := fd));
    AfterRecording(k.p, n.p, pcb, t.p, pcb.(retvalue := ESEMOPEN));
    m, y := Opens(n, id, flags, count);
    hide RecordCall;
  }

  lemma RecordsOpen(k: Kern, id: int, flags: int, count: int)
    requires k.p.running.Ref?
    ensures GoesOn(k.p, RecordCall(k, SemOpenCall(id, flags, count)).p,
                   k.p.pcbs[k.p.running.p].(syscallNum := CALL_SEMOPEN, arg0 := id, arg1 := flags))
  {
  }

  lemma Opens(k: Kern, id: int, flags: int, count: int) returns (m: Block, y: Sems)
    requires KernInv(k) && k.p.running.Ref? && (Creates(k, id, flags) ==> InitialCount(count) >= 0)
    ensures var t, r, fd := SemOpen(k, id, flags, count), k.p.running.p, k.x.lastFd[k.p.running.p];
            var pcb := k.p.pcbs[r];
            if !Gets(k, id, CreateSet(flags), ExclSet(flags))
            then GoesOn(k.p, t.p, pcb.(retvalue := ESEMOPEN)) && t.x == k.x
            else
              && FoundOrMade(k.x, y, m, id, count)
              && if k.x.freeDescs == [] then GoesOn(k.p, t.p, pcb.(retvalue := ESEMOPEN)) && t.x == y
                 else GoesOn(k.p, t.p, pcb.(retvalue := fd)) && OneMore(y, t.x, r, m, fd)
  {
    var found := ById(k.x, k.x.semList, id);
    m, y := 0, k.x;
    FreeSemaphores(k.x);
    WhatIsNamed(k.x, id);
    hide KernInv, FirstNamed, ById, Create, Attach, OneMore, MadeWith;
    if found.Ref? {
      m := found.p;
      Attached(k, m);
    } else if Creates(k, id, flags) {
      m, y := k.x.freeSems[0], Create(k.x, id, InitialCount(count));
      CreateMakes(k.x, id, InitialCount(count));
      Attached(k.(x := y), m);
    }
  }

  lemma Attached(k: Kern, m: Block)
    requires k.p.running.Ref?
    ensures var t, r, fd := Attach(k, m), k.p.running.p, k.x.lastFd[k.p.running.p];
            if k.x.freeDescs == [] then GoesOn(k.p, t.p, k.p.pcbs[r].(retvalue := ESEMOPEN)) && t.x == k.x
            else GoesOn(k.p, t.p, k.p.pcbs[r].(retvalue := fd)) && OneMore(k.x, t.x, r, m, fd)
  {
  }

  lemma CreateMakes(x: Sems, id: int, count: int)
    requires x.freeSems != [] && x.attached[x.freeSems[0]] == []
    ensures MadeWith(x, Create(x, id, count), x.freeSems[0], id, count)
    ensures Create(x, id, count).lastFd == x.lastFd && Create(x, id, count).freeDescs == x.freeDescs
  {
  }

  lemma WhatIsNamed(x: Sems, id: int)
    ensures ById(x, x.semList, id).Ref? <==> exists i :: FirstNamed(x, id, i)
    ensures ById(x, x.semList, id).Ref? ==>
              exists i :: FirstNamed(x, id, i) && x.semList[i] == ById(x, x.semList, id).p
  {
    var i := ByIdIsFirst(x, x.semList, id);
    assert ById(x, x.semList, id).Ref? ==> FirstNamed(x, id, i);
  }

  /** A free semaphore has no descriptors, and there is one while fewer than 1024 are in the list. */
  lemma FreeSemaphores(x: Sems)
    requires SemInv(x)
    ensures x.freeSems != [] ==> x.attached[x.freeSems[0]] == [] && |x.semList| < MAX_NUM_SEMAPHORES
  {
    ExactlySize(SemBag(x), MAX_NUM_SEMAPHORES);
  }
}
