/** When opening a message queue succeeds, and whether the fd it returns names what was opened. */
module MessageQueueOpening {
  import opened Bags
  import opened Timers
  import opened Processes
  import opened MessageQueues
  import opened MessageQueueLaws
  import opened MessageQueueSteps
  import opened MessageQueueReads
  import opened MessageQueueRuns

  /** The message queue an open reaches: the one with this id, or a new one. */
  function Target(s: Mail, id: int): MqBlock
    requires ById(s, s.mqList, id).Some? || s.freeMqs != []
  {
    var found := ById(s, s.mqList, id);
    if found.Some? then found.value else s.freeMqs[0]
  }

  /** What opening needs. DSOS_EXCL matters only together with DSOS_CREATE; alone it is no error, against what the
      interface says. */
  ghost predicate CanOpen(s: Mail, p: Block, id: int, flags: int, priority: int) {
    && |s.owned[p]| < MAX_NUM_MQDESCRIPTORS_PER_PROCESS && id >= 0 && s.freeDescs != []
    && if exists m :: m in s.mqList && s.ids[m] == id then !(CreateSet(flags) && ExclSet(flags))
       else CreateSet(flags) && s.freeMqs != [] && |s.mqList| < MAX_NUM_MQS && 0 <= priority < |s.freeQueues|
  }

  /** The state in which an open makes its descriptor. */
  lemma OpenAttaches(s: Mail, p: Block, id: int, flags: int, priority: int)
    requires MailInv(s) && (Creates(s, p, id, flags, priority) ==> s.mqList == []) && CanOpen(s, p, id, flags, priority)
    ensures ById(s, s.mqList, id).Some? || s.freeMqs != []
    ensures var c := if Creates(s, p, id, flags, priority) then WithNewMq(s, id, priority) else s;
            Open(s, p, id, flags, priority) == Attach(c, p, Target(s, id)) && c.freeDescs == s.freeDescs
            && c.owned == s.owned
            && c.lastFd == s.lastFd && c.descs == s.descs && Target(s, id) in c.mqList && c.ids[Target(s, id)] == id
  {
    ByIdFinds(s, s.mqList, id);
    OwnedListed(s, p);
    QueuesBounded(s);
    hide MailInv;
    if Creates(s, p, id, flags, priority) {
      NewMqBuilds(s, id, priority);
    }
  }

  /** Everything else fails, and a failure opens nothing. */
  lemma OpenFails(s: Mail, p: Block, id: int, flags: int, priority: int)
    requires MailInv(s) && (Creates(s, p, id, flags, priority) ==> s.mqList == [])
    requires !CanOpen(s, p, id, flags, priority)
    ensures Open(s, p, id, flags, priority).1 == Returned(EMQOPEN)
    ensures Open(s, p, id, flags, priority).0.owned == s.owned && Open(s, p, id, flags, priority).0.descs == s.descs
  {
    ByIdFinds(s, s.mqList, id);
    OwnedListed(s, p);
    hide MailInv;
    if Creates(s, p, id, flags, priority) {
      NewMqBuilds(s, id, priority);
    }
  }

  /** An open succeeds exactly when it can, and returns the number of descriptors the process had. */
  lemma OpenSucceedsIff(s: Mail, p: Block, id: int, flags: int, priority: int)
    requires MailInv(s) && (Creates(s, p, id, flags, priority) ==> s.mqList == [])
    ensures var r := Open(s, p, id, flags, priority).1;
            r == (if CanOpen(s, p, id, flags, priority) then Returned(|s.owned[p]|) else Returned(EMQOPEN))
  {
    OwnedListed(s, p);
    if CanOpen(s, p, id, flags, priority) {
      OpenAttaches(s, p, id, flags, priority);
    } else {
      OpenFails(s, p, id, flags, priority);
    }
  }

  /** The fd returned names the descriptor just made exactly when no descriptor the process already had has that fd;
      closing in another order than last opened first closed makes such duplicates. */
  lemma NewFdNamesItIff(s: Mail, p: Block, id: int, flags: int, priority: int)
    requires MailInv(s) && (Creates(s, p, id, flags, priority) ==> s.mqList == []) && CanOpen(s, p, id, flags, priority)
    ensures var (t, r) := Open(s, p, id, flags, priority);
            var d := s.freeDescs[0];
            && d in t.owned[p] && t.descs[d].mq in t.mqList && t.ids[t.descs[d].mq] == id
            && (Lookup(t, p, r.ret) == Some(d) <==> forall x :: x in s.owned[p] ==> s.descs[x].fd != |s.owned[p]|)
  {
    OpenAttaches(s, p, id, flags, priority);
    OwnedListed(s, p);
    var t := Open(s, p, id, flags, priority).0;
    var d := s.freeDescs[0];
    OwnedNotFree(s, p);
    hide MailInv, CanOpen;
    FirstWithFd(t, s.owned[p], d, |s.owned[p]|);
    assert forall x :: x in s.owned[p] ==> t.descs[x] == s.descs[x];
  }

  lemma OwnedNotFree(s: Mail, p: Block)
    requires MailInv(s)
    ensures forall d :: d in s.owned[p] ==> d !in s.freeDescs
  {
    forall d | d in s.owned[p]
      ensures d !in s.freeDescs
    {
      DescsApart(s, s.descs[d].mq);
    }
  }

  lemma {:induction false} FirstWithFd(s: Mail, ds: seq<Block>, d: Block, fd: int)
    requires s.descs[d].fd == fd && d !in ds
    ensures ByFd(s, ds + [d], fd) == Some(d) <==> forall x :: x in ds ==> s.descs[x].fd != fd
  {
    if ds == [] {
      assert ByFd(s, [d], fd) == Some(d);
    } else {
      FirstWithFd(s, ds[1..], d, fd);
      assert (ds + [d])[1..] == ds[1..] + [d];
      assert forall x :: x in ds <==> x == ds[0] || x in ds[1..];
    }
  }

  /** Opening an existing message queue and closing the fd returned restores every list, exactly when the fd was
      not a duplicate; otherwise an older descriptor is closed, and the new one stays. */
  lemma CloseUndoesOpenIff(s: Mail, p: Block, id: int, flags: int, priority: int)
    requires MailInv(s) && CanOpen(s, p, id, flags, priority) && exists m :: m in s.mqList && s.ids[m] == id
    ensures !Creates(s, p, id, flags, priority)
    ensures var (t, r) := Open(s, p, id, flags, priority);
            var u := Close(t, p, r.ret).0;
            && (u.owned == s.owned <==> forall x :: x in s.owned[p] ==> s.descs[x].fd != |s.owned[p]|)
            && (u.owned == s.owned ==> u == s.(descs := t.descs))
            && (u.owned != s.owned ==> s.freeDescs[0] in u.owned[p])
  {
    ByIdFinds(s, s.mqList, id);
    var m := Target(s, id);
    var t := Open(s, p, id, flags, priority).0;
    OpenAttaches(s, p, id, flags, priority);
    OpenSucceedsIff(s, p, id, flags, priority);
    NewFdNamesItIff(s, p, id, flags, priority);
    OwnedNotFree(s, p);
    OwnedListed(s, p);
    DescsApart(s, m);
    hide MailInv, CanOpen, Open;
    AttachThenDetach(s, p, m);
    ByFdFinds(t, t.owned[p], |s.owned[p]|);
    if forall x :: x in s.owned[p] ==> s.descs[x].fd != |s.owned[p]| {
      assert Close(t, p, |s.owned[p]|).0 == Detach(t, p, s.freeDescs[0]);
    } else {
      KeptByRemove(t.owned[p], Lookup(t, p, |s.owned[p]|), s.freeDescs[0]);
    }
  }

  lemma AttachThenDetach(s: Mail, p: Block, m: MqBlock)
    requires s.freeDescs != [] && s.freeDescs[0] !in s.owned[p] && s.freeDescs[0] !in s.descsOf[m]
    ensures var t := Attach(s, p, m).0;
            Detach(t, p, s.freeDescs[0]) == s.(descs := t.descs) && s.freeDescs[0] in t.owned[p]
  {
    var t := Attach(s, p, m).0;
    var d := s.freeDescs[0];
    RemoveAppended<Block>(s.owned[p], d);
    RemoveAppended<Block>(s.descsOf[m], d);
    var u := Detach(t, p, d);
    assert u.owned == s.owned && u.descsOf == s.descsOf && u.lastFd == s.lastFd && u.freeDescs == s.freeDescs;
  }

  lemma {:induction false} KeptByRemove(l: seq<Block>, d: Option<Block>, x: Block)
    requires x in l && d != Some(x)
    ensures d.Some? ==> x in Remove(l, d.value)
  {
    if d.Some? && l[0] != d.value && l[0] != x {
      KeptByRemove(l[1..], d, x);
    }
  }

  // ---- how fds get repeated

  /** The fds of p are 0, 1, 2, ... in the order of its descriptor list. */
  ghost predicate FdsInOrder(s: Mail, p: Block) {
    forall i :: 0 <= i < |s.owned[p]| ==> s.descs[s.owned[p][i]].fd == i
  }

  lemma {:induction false} FdAtIndex(s: Mail, ds: seq<Block>, first: int, f: nat)
    requires f < |ds| && forall i :: 0 <= i < |ds| ==> s.descs[ds[i]].fd == first + i
    ensures ByFd(s, ds, first + f) == Some(ds[f])
  {
    if f > 0 {
      assert forall i :: 0 <= i < |ds[1..]| ==> ds[1..][i] == ds[i + 1];
      FdAtIndex(s, ds[1..], first + 1, f - 1);
    }
  }

  /** Closing fd f takes the f-th descriptor out of the list. */
  lemma CloseAtIndex(s: Mail, p: Block, f: nat)
    requires MailInv(s) && FdsInOrder(s, p) && f < |s.owned[p]|
    ensures var u := Close(s, p, f).0;
            u.owned == s.owned[p := s.owned[p][..f] + s.owned[p][f + 1..]] && u.descs == s.descs
  {
    assert NoDuplicates(s.owned[p]) && |s.owned[p]| <= MAX_NUM_MQDESCRIPTORS_PER_PROCESS;
    FdAtIndex(s, s.owned[p], 0, f);
    RemoveIndex<Block>(s.owned[p], f);
    hide MailInv, ByFd, Remove, NoDuplicates, FdsInOrder;
  }

  /** The fds that are left lack n - 1, their number, exactly when that is the one closed. */
  lemma FdMissing(s: Mail, l: seq<Block>, f: nat)
    requires f < |l| && forall i :: 0 <= i < |l| ==> s.descs[l[i]].fd == i
    ensures (forall x :: x in l[..f] + l[f + 1..] ==> s.descs[x].fd != |l| - 1) <==> f == |l| - 1
  {
    var rest, n := l[..f] + l[f + 1..], |l|;
    if f < n - 1 {
      assert rest[n - 2] == l[n - 1] && rest[n - 2] in rest;
    } else {
      forall x | x in rest
        ensures s.descs[x].fd != n - 1
      {
        var i :| 0 <= i < n - 1 && rest[i] == x;
        assert l[i] == x;
      }
    }
  }

  /** After closing f, the next open returns an fd that names what it opened exactly when f was the last fd. */
  lemma CloseThenOpenIff(s: Mail, p: Block, f: nat, id: int, flags: int, priority: int)
    requires MailInv(s) && FdsInOrder(s, p) && f < |s.owned[p]|
    requires var u := Close(s, p, f).0;
             (Creates(u, p, id, flags, priority) ==> u.mqList == []) && CanOpen(u, p, id, flags, priority)
    ensures var u := Close(s, p, f).0;
            var (t, r) := Open(u, p, id, flags, priority);
            Lookup(t, p, r.ret) == Some(u.freeDescs[0]) <==> f == |s.owned[p]| - 1
  {
    hide MailInv, Open, CanOpen, Creates;
    var u := Close(s, p, f).0;
    CloseKeeps(s, p, f);
    CloseAtIndex(s, p, f);
    FdMissing(s, s.owned[p], f);
    hide Close, FdsInOrder;
    NewFdNamesItIff(u, p, id, flags, priority);
  }

  /** The step does not close a descriptor other than the one its process opened last. */
  predicate LastFirst(s: Mail, step: MailStep) {
    step.CloseStep? && Lookup(s, step.p, step.fd).Some? ==> step.fd == |s.owned[step.p]| - 1
  }

  predicate AllLastFirst(s: Mail, steps: seq<MailStep>)
    requires Legal(s, steps)
    decreases |steps|
  {
    steps == [] || (LastFirst(s, steps[0]) && AllLastFirst(After(s, steps[0]), steps[1..]))
  }

  lemma OpenInOrder(s: Mail, p: Block, id: int, flags: int, priority: int, q: Block)
    requires MailInv(s) && (Creates(s, p, id, flags, priority) ==> s.mqList == []) && FdsInOrder(s, q)
    ensures FdsInOrder(Open(s, p, id, flags, priority).0, q)
  {
    if CanOpen(s, p, id, flags, priority) {
      OpenAttaches(s, p, id, flags, priority);
      OwnedListed(s, p);
      OwnedNotFree(s, q);
      hide MailInv, CanOpen, Open, WithNewMq, Creates;
      assert forall i :: 0 <= i < |s.owned[q]| ==> s.owned[q][i] in s.owned[q];
    } else {
      OpenFails(s, p, id, flags, priority);
    }
  }

  lemma CloseInOrder(s: Mail, p: Block, fd: int, q: Block)
    requires MailInv(s) && LastFirst(s, CloseStep(p, fd)) && FdsInOrder(s, q) && FdsInOrder(s, p)
    ensures FdsInOrder(Close(s, p, fd).0, q)
  {
    if Lookup(s, p, fd).Some? {
      ByFdFinds(s, s.owned[p], fd);
      CloseAtIndex(s, p, fd);
      hide MailInv, Close;
    }
  }

  lemma SameFds(s: Mail, t: Mail, q: Block)
    requires FdsInOrder(s, q) && t.owned[q] == s.owned[q] && t.descs == s.descs
    ensures FdsInOrder(t, q)
  {
  }

  lemma StepInOrder(s: Mail, step: MailStep, q: Block)
    requires MailInv(s) && Permitted(s, step) && LastFirst(s, step) && FdsInOrder(s, q)
    requires step.CloseStep? ==> FdsInOrder(s, step.p)
    ensures FdsInOrder(After(s, step), q)
  {
    hide MailInv, FdsInOrder, LastFirst;
    match step
    case OpenStep(p, id, flags, priority) =>
      hide Open;
      OpenInOrder(s, p, id, flags, priority, q);
    case WriteStep(p, fd, text, length, priority) => SameFds(s, After(s, step), q);
    case ReadStep(p, fd, bufSize) =>
      if Lookup(s, p, fd).Some? {
        ReadFromFrame(s, s.descs[Lookup(s, p, fd).value].mq, 0, bufSize);
      }
      SameFds(s, After(s, step), q);
    case CloseStep(p, fd) =>
      hide Close;
      CloseInOrder(s, p, fd, q);
    case UnlinkStep(id) =>
      var m := ById(s, s.mqList, id);
      if m.Some? {
        DropQueuesFrame(Delist(s, m.value), m.value, 0);
      }
      SameFds(s, After(s, step), q);
    case NewProcessStep(p) => NewProcessInOrder(s, p, q);
  }

  lemma NewProcessInOrder(s: Mail, p: Block, q: Block)
    requires FdsInOrder(s, q)
    ensures FdsInOrder(NewProcess(s, p), q)
  {
  }

  /** In runs that close last what was opened first, fds stay in order, */
  lemma {:induction false} RunInOrder(s: Mail, steps: seq<MailStep>)
    requires MailInv(s) && Legal(s, steps) && AllLastFirst(s, steps) && forall q: Block :: FdsInOrder(s, q)
    ensures forall q: Block :: FdsInOrder(Run(s, steps), q)
    decreases |steps|
  {
    hide MailInv, FdsInOrder, After, LastFirst, Permitted;
    if steps != [] {
      StepKeeps(s, steps[0]);
      forall q: Block
        ensures FdsInOrder(After(s, steps[0]), q)
      {
        StepInOrder(s, steps[0], q);
      }
      RunInOrder(After(s, steps[0]), steps[1..]);
    }
  }

  lemma OrderedFdsName(s: Mail, p: Block, id: int, flags: int, priority: int)
    requires MailInv(s) && FdsInOrder(s, p)
    requires (Creates(s, p, id, flags, priority) ==> s.mqList == []) && CanOpen(s, p, id, flags, priority)
    ensures var (t, r) := Open(s, p, id, flags, priority);
            Lookup(t, p, r.ret) == Some(s.freeDescs[0])
  {
    hide MailInv, Open, CanOpen, Creates, Lookup;
    NewFdNamesItIff(s, p, id, flags, priority);
    forall x | x in s.owned[p]
      ensures s.descs[x].fd != |s.owned[p]|
    {
      var i :| 0 <= i < |s.owned[p]| && s.owned[p][i] == x;
    }
  }

  /** and so every open returns an fd that names what it opened. */
  lemma LastFirstFdsName(s: Mail, steps: seq<MailStep>, p: Block, id: int, flags: int, priority: int)
    requires Boot(s) && Legal(s, steps) && AllLastFirst(s, steps)
    requires var u := Run(s, steps);
             (Creates(u, p, id, flags, priority) ==> u.mqList == []) && CanOpen(u, p, id, flags, priority)
    ensures var u := Run(s, steps);
            var (t, r) := Open(u, p, id, flags, priority);
            Lookup(t, p, r.ret) == Some(u.freeDescs[0])
  {
    hide MailInv, Legal, AllLastFirst, Run, Open, CanOpen, Creates, Lookup;
    BootInOrder(s);
    hide Boot, FdsInOrder;
    RunKeeps(s, steps);
    RunInOrder(s, steps);
    OrderedFdsName(Run(s, steps), p, id, flags, priority);
  }

  lemma BootInOrder(s: Mail)
    requires Boot(s)
    ensures MailInv(s) && forall q: Block :: FdsInOrder(s, q)
  {
    BootHolds(s);
    hide MailInv;
  }

  /** An unlink succeeds exactly when the message queue exists, counts no messages and has no descriptors. The id is
      then free, and all its queues are back in the pool; a failure changes nothing. */
  lemma UnlinkSucceedsIff(s: Mail, id: int)
    requires MailInv(s)
    ensures var (t, r) := Unlink(s, id);
            && (r == Returned(0) <==>
                  exists m :: m in s.mqList && s.ids[m] == id && s.nums[m] == 0 && s.descsOf[m] == [])
            && (r != Returned(0) ==> r == Returned(EMQUNLINK) && t == s)
            && (r == Returned(0) ==>
                  && ById(t, t.mqList, id).None? && |t.mqList| == |s.mqList| - 1
                  && |t.freeQueues| == |s.freeQueues| + s.priorities[ById(s, s.mqList, id).value] + 1)
  {
    var m := ById(s, s.mqList, id);
    ByIdFinds(s, s.mqList, id);
    if m.Some? {
      assert forall n :: n in s.mqList && s.ids[n] == id ==> n == m.value;
      if s.nums[m.value] == 0 && s.descsOf[m.value] == [] {
        var t := Unlink(s, id).0;
        UnlinkFrees(s, m.value);
        ByIdFinds(t, t.mqList, id);
        MqsApart(s);
        RemovedIsGone<MqBlock>(s.mqList, m.value);
        DropQueuesFrame(Delist(s, m.value), m.value, 0);
      }
    }
    hide MailInv;
  }

  lemma UnlinkFrees(s: Mail, m: MqBlock)
    requires MailInv(s) && m in s.mqList && s.nums[m] == 0
    ensures |DropQueues(Delist(s, m), m, 0).freeQueues| == |s.freeQueues| + s.priorities[m] + 1
  {
    QueueCount(s, m);
    QueuedNotNegative(s, m);
    DropQueuesRestock(Delist(s, m), m, 0);
    RestockedSize(s.queuesOf[m], s.freeQueues);
  }

  lemma {:induction false} RestockedSize(qs: seq<QueueBlock>, free: seq<QueueBlock>)
    ensures |Restocked(qs, free)| == |qs| + |free|
  {
    if qs != [] {
      RestockedSize(qs[1..], [qs[0]] + free);
    }
  }

  lemma QueuesBounded(s: Mail)
    requires MailInv(s)
    ensures |s.freeQueues| <= MAX_NUM_QUEUES
  {
    ExactlySize(QueueBag(s), MAX_NUM_QUEUES);
  }
}
