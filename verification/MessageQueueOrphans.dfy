/** Message queue descriptors that are in no PCB's list any more: when they arise, and that they stay. */
module MessageQueueOrphans {
  import opened Bags
  import opened Timers
  import opened Processes
  import opened MessageQueues
  import opened MessageQueueLaws
  import opened MessageQueueSteps
  import opened MessageQueueRuns
  import opened MessageQueueOpening

  /** A descriptor of m that is in no PCB's list any more. */
  ghost predicate Orphan(s: Mail, m: MqBlock, d: Block) {
    d in s.descsOf[m] && d !in s.owned[s.descs[d].owner]
  }

  /** The step gives a PCB whose last owner left d open to a new process: PCB_alloc forgets the list. */
  predicate Forgets(s: Mail, step: MailStep, d: Block) {
    step.NewProcessStep? && d in s.owned[step.p]
  }

  lemma SameOrphan(s: Mail, t: Mail, m: MqBlock, d: Block)
    requires t.descsOf == s.descsOf && t.descs == s.descs && t.owned == s.owned
    ensures Orphan(t, m, d) <==> Orphan(s, m, d)
  {
  }

  lemma AttachOrphanIff(s: Mail, p: Block, n: MqBlock, m: MqBlock, d: Block)
    requires s.freeDescs != [] && s.freeDescs[0] !in s.descsOf[m]
    ensures Orphan(Attach(s, p, n).0, m, d) <==> Orphan(s, m, d)
  {
    var t, e := Attach(s, p, n).0, s.freeDescs[0];
    assert d in t.descsOf[m] <==> d in s.descsOf[m] || (m == n && d == e);
    assert forall q: Block :: d in t.owned[q] <==> d in s.owned[q] || (q == p && d == e);
  }

  /** A creation makes no descriptors before it attaches one. */
  lemma CreationKeepsDescs(s: Mail, p: Block, id: int, flags: int, priority: int)
    requires MailInv(s) && Creates(s, p, id, flags, priority) && s.mqList == []
    ensures var c := AddQueues(NewMq(s, id, priority), s.freeMqs[0], 0, priority);
            c.descsOf == s.descsOf && c.descs == s.descs && c.owned == s.owned && c.freeDescs == s.freeDescs
  {
    hide MailInv, AddQueues, Queued, Ranks, Descending;
    FreeMqUnopened(s);
    NewMqBuilds(s, id, priority);
    assert NewMq(s, id, priority).descsOf == s.descsOf;
  }

  lemma FreeMqUnopened(s: Mail)
    requires MailInv(s) && s.mqList == [] && s.freeMqs != []
    ensures s.descsOf[s.freeMqs[0]] == []
  {
    hide BlocksPlaced, Ranked, Counted, InOrder, LengthsBounded, FreeAreEmpty;
  }

  lemma OpenOrphanIff(s: Mail, p: Block, id: int, flags: int, priority: int, m: MqBlock, d: Block)
    requires MailInv(s) && (Creates(s, p, id, flags, priority) ==> s.mqList == [])
    ensures Orphan(Open(s, p, id, flags, priority).0, m, d) <==> Orphan(s, m, d)
  {
    FreeDescsApart(s, m);
    hide MailInv, Attach, AddQueues, NewMq, Orphan;
    if Creates(s, p, id, flags, priority) {
      CreationKeepsDescs(s, p, id, flags, priority);
      var c := AddQueues(NewMq(s, id, priority), s.freeMqs[0], 0, priority);
      SameOrphan(s, c, m, d);
      var e := EnlistMq(c, s.freeMqs[0], s.unlisted);
      SameOrphan(s, e, m, d);
      MaybeAttach(e, p, s.freeMqs[0], m, d);
    } else if ById(s, s.mqList, id).Some? {
      MaybeAttach(s, p, ById(s, s.mqList, id).value, m, d);
    }
  }

  lemma MaybeAttach(s: Mail, p: Block, n: MqBlock, m: MqBlock, d: Block)
    requires forall e :: e in s.freeDescs ==> e !in s.descsOf[m]
    ensures Orphan(Attach(s, p, n).0, m, d) <==> Orphan(s, m, d)
  {
    if s.freeDescs != [] {
      AttachOrphanIff(s, p, n, m, d);
    }
  }

  lemma FreeDescsApart(s: Mail, m: MqBlock)
    requires MailInv(s)
    ensures forall e :: e in s.freeDescs ==> e !in s.descsOf[m]
  {
    DescsApart(s, m);
  }

  lemma CloseOrphanIff(s: Mail, p: Block, fd: int, m: MqBlock, d: Block)
    requires MailInv(s)
    ensures Orphan(Close(s, p, fd).0, m, d) <==> Orphan(s, m, d)
  {
    if Lookup(s, p, fd).Some? {
      var e := Lookup(s, p, fd).value;
      ByFdFinds(s, s.owned[p], fd);
      DetachMembers(s, p, e);
      hide MailInv, Detach;
    }
  }

  /** The descriptor leaves the two lists it is in, and no other does. */
  lemma DetachMembers(s: Mail, p: Block, e: Block)
    requires MailInv(s) && e in s.owned[p]
    ensures s.descs[e].owner == p && Detach(s, p, e).descs == s.descs
    ensures forall q: Block, d :: d in Detach(s, p, e).owned[q] <==> d in s.owned[q] && (q != p || d != e)
    ensures forall m: MqBlock, d :: d in Detach(s, p, e).descsOf[m] <==> d in s.descsOf[m] && d != e
  {
    var n := s.descs[e].mq;
    DescsApart(s, n);
    RemovedIsGone<Block>(s.owned[p], e);
    RemovedIsGone<Block>(s.descsOf[n], e);
    assert forall m: MqBlock :: e in s.descsOf[m] ==> m == n;
  }

  /** Only an open makes a descriptor, of its caller, and only a close takes one away, of its caller; who owns the
      others does not change. */
  lemma StepDescs(s: Mail, step: MailStep, m: MqBlock, d: Block)
    requires MailInv(s) && Permitted(s, step)
    ensures var t := After(s, step);
            && (d in s.descsOf[m] && d in t.descsOf[m] ==> t.descs[d] == s.descs[d])
            && (d !in s.descsOf[m] && d in t.descsOf[m] ==> step.OpenStep? && t.descs[d].owner == step.p)
            && (d in s.descsOf[m] && d !in t.descsOf[m] ==> step.CloseStep? && d in s.owned[step.p])
  {
    hide MailInv;
    match step
    case OpenStep(p, id, flags, priority) =>
      hide Open;
      OpenDescs(s, p, id, flags, priority, m, d);
    case WriteStep(_, _, _, _, _) =>
    case ReadStep(p, fd, bufSize) =>
      if Lookup(s, p, fd).Some? {
        ReadFromFrame(s, s.descs[Lookup(s, p, fd).value].mq, 0, bufSize);
      }
    case CloseStep(p, fd) =>
      if Lookup(s, p, fd).Some? {
        ByFdFinds(s, s.owned[p], fd);
        DetachMembers(s, p, Lookup(s, p, fd).value);
        hide Detach;
      }
    case UnlinkStep(id) =>
      var n := ById(s, s.mqList, id);
      if n.Some? {
        DropQueuesFrame(Delist(s, n.value), n.value, 0);
      }
    case NewProcessStep(p) =>
  }

  lemma OpenDescs(s: Mail, p: Block, id: int, flags: int, priority: int, m: MqBlock, d: Block)
    requires MailInv(s) && (Creates(s, p, id, flags, priority) ==> s.mqList == [])
    ensures var t := Open(s, p, id, flags, priority).0;
            && (d in s.descsOf[m] ==> d in t.descsOf[m] && t.descs[d] == s.descs[d])
            && (d !in s.descsOf[m] && d in t.descsOf[m] ==> t.descs[d].owner == p)
  {
    FreeDescsApart(s, m);
    hide MailInv, Attach, AddQueues, NewMq;
    if Creates(s, p, id, flags, priority) {
      CreationKeepsDescs(s, p, id, flags, priority);
      var c := AddQueues(NewMq(s, id, priority), s.freeMqs[0], 0, priority);
      AttachDescs(EnlistMq(c, s.freeMqs[0], s.unlisted), p, s.freeMqs[0], m, d);
    } else if ById(s, s.mqList, id).Some? {
      AttachDescs(s, p, ById(s, s.mqList, id).value, m, d);
    }
  }

  lemma AttachDescs(s: Mail, p: Block, n: MqBlock, m: MqBlock, d: Block)
    requires forall e :: e in s.freeDescs ==> e !in s.descsOf[m]
    ensures var t := Attach(s, p, n).0;
            && (d in s.descsOf[m] ==> d in t.descsOf[m] && t.descs[d] == s.descs[d])
            && (d !in s.descsOf[m] && d in t.descsOf[m] ==> t.descs[d].owner == p)
  {
  }

  lemma NewProcessOrphanIff(s: Mail, p: Block, m: MqBlock, d: Block)
    requires MailInv(s)
    ensures Orphan(NewProcess(s, p), m, d) <==> Orphan(s, m, d) || (d in s.descsOf[m] && d in s.owned[p])
  {
  }

  /** When a descriptor of m is orphaned: exactly by starting a process in the PCB of its owner; and once orphaned it
      stays so, whatever the step. */
  lemma OrphanIff(s: Mail, step: MailStep, m: MqBlock, d: Block)
    requires MailInv(s) && Permitted(s, step)
    ensures Orphan(After(s, step), m, d) <==> Orphan(s, m, d) || (d in s.descsOf[m] && Forgets(s, step, d))
  {
    hide MailInv, Orphan;
    match step
    case OpenStep(p, id, flags, priority) =>
      hide Open;
      OpenOrphanIff(s, p, id, flags, priority, m, d);
    case WriteStep(p, fd, text, length, priority) => SameOrphan(s, After(s, step), m, d);
    case ReadStep(p, fd, bufSize) =>
      if Lookup(s, p, fd).Some? {
        ReadFromFrame(s, s.descs[Lookup(s, p, fd).value].mq, 0, bufSize);
      }
      SameOrphan(s, After(s, step), m, d);
    case CloseStep(p, fd) =>
      hide Close;
      CloseOrphanIff(s, p, fd, m, d);
    case UnlinkStep(id) =>
      var n := ById(s, s.mqList, id);
      if n.Some? {
        DropQueuesFrame(Delist(s, n.value), n.value, 0);
      }
      SameOrphan(s, After(s, step), m, d);
    case NewProcessStep(p) => NewProcessOrphanIff(s, p, m, d);
  }

  /** Such a descriptor stays for good, and its message queue is never unlinked. */
  lemma {:induction false} OrphanForever(s: Mail, steps: seq<MailStep>, m: MqBlock, d: Block)
    requires MailInv(s) && Legal(s, steps) && Orphan(s, m, d)
    ensures Orphan(Run(s, steps), m, d) && m in Run(s, steps).mqList
    decreases |steps|
  {
    if steps != [] {
      hide MailInv, Orphan, After;
      StepKeeps(s, steps[0]);
      OrphanIff(s, steps[0], m, d);
      OrphanForever(After(s, steps[0]), steps[1..], m, d);
    }
  }

  // ---- every descriptor is in a list

  ghost predicate Held(s: Mail) {
    forall m: MqBlock, d :: d in s.descsOf[m] ==> d in s.owned[s.descs[d].owner]
  }

  /** The step gives the PCB of a process that left message queues open to a new one. */
  predicate ForgetsAny(s: Mail, step: MailStep) {
    step.NewProcessStep? && s.owned[step.p] != []
  }

  /** Every descriptor is still in the list of its PCB after a step exactly when the step is not such a start. */
  lemma HeldKeptIff(s: Mail, step: MailStep)
    requires MailInv(s) && Permitted(s, step) && Held(s)
    ensures Held(After(s, step)) <==> !ForgetsAny(s, step)
  {
    hide MailInv, After, Orphan, Held, Forgets;
    var t := After(s, step);
    HeldIff(s);
    HeldIff(t);
    forall m: MqBlock, d: Block
      ensures Orphan(t, m, d) <==> d in s.descsOf[m] && Forgets(s, step, d)
    {
      OrphanIff(s, step, m, d);
    }
    if ForgetsAny(s, step) {
      OwnedForgotten(s, step);
    } else {
      assert forall d: Block :: !Forgets(s, step, d) by { NothingForgotten(s, step); }
    }
  }

  lemma HeldIff(s: Mail)
    ensures Held(s) <==> forall m: MqBlock, d: Block :: !Orphan(s, m, d)
  {
    if forall m: MqBlock, d: Block :: !Orphan(s, m, d) {
      forall m: MqBlock, d | d in s.descsOf[m]
        ensures d in s.owned[s.descs[d].owner]
      {
        assert !Orphan(s, m, d);
      }
    }
  }

  lemma OwnedForgotten(s: Mail, step: MailStep)
    requires MailInv(s) && ForgetsAny(s, step)
    ensures exists m: MqBlock, d: Block :: d in s.descsOf[m] && Forgets(s, step, d)
  {
    var d := s.owned[step.p][0];
    assert d in s.owned[step.p];
    assert d in s.descsOf[s.descs[d].mq] && Forgets(s, step, d);
  }

  lemma NothingForgotten(s: Mail, step: MailStep)
    requires !ForgetsAny(s, step)
    ensures forall d: Block :: !Forgets(s, step, d)
  {
  }
}
