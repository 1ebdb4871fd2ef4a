/** When message queues go away: proper use drains and unlinks them. */
module MessageQueueDrains {
  import opened Bags
  import opened Timers
  import opened Processes
  import opened MessageQueues
  import opened MessageQueueLaws
  import opened MessageQueueSteps
  import opened MessageQueueReads
  import opened MessageQueueRuns
  import opened MessageQueueOpening

  // ---- proper use

  /** Reads have room for any message, and writes name a class that reads look at. */
  predicate Proper(s: Mail, step: MailStep) {
    && (step.ReadStep? ==> step.bufSize >= MAX_MESSAGE_LENGTH)
    && (step.WriteStep? ==>
          var d := Lookup(s, step.p, step.fd);
          d.Some? ==> 0 <= step.priority < s.priorities[s.descs[d.value].mq])
  }

  predicate AllProper(s: Mail, steps: seq<MailStep>)
    requires Legal(s, steps)
    decreases |steps|
  {
    steps == [] || (Proper(s, steps[0]) && AllProper(After(s, steps[0]), steps[1..]))
  }

  ghost predicate NoneStuck(s: Mail) {
    forall m :: m in s.mqList ==> Stuck(s, m) == 0
  }

  lemma NothingStuck(s: Mail, m: MqBlock)
    requires MailInv(s) && m in s.mqList && s.nums[m] == 0
    ensures Stuck(s, m) == 0
  {
    StuckIsCounted(s, m);
  }

  lemma OpenUnstuck(s: Mail, p: Block, id: int, flags: int, priority: int)
    requires MailInv(s) && (Creates(s, p, id, flags, priority) ==> s.mqList == []) && NoneStuck(s)
    ensures NoneStuck(Open(s, p, id, flags, priority).0)
  {
    hide MailInv, Stuck;
    var t := Open(s, p, id, flags, priority).0;
    OpenKeeps(s, p, id, flags, priority);
    if Creates(s, p, id, flags, priority) {
      NewMqBuilds(s, id, priority);
      hide AddQueues, Ranks, Queued;
      forall m | m in t.mqList
        ensures Stuck(t, m) == 0
      {
        NothingStuck(t, m);
      }
    } else {
      forall m | m in s.mqList
        ensures Stuck(t, m) == Stuck(s, m)
      {
        SameStuck(s, t, m);
      }
    }
  }

  lemma WriteUnstuck(s: Mail, p: Block, fd: int, text: int, length: int, priority: int)
    requires MailInv(s) && Proper(s, WriteStep(p, fd, text, length, priority)) && NoneStuck(s)
    ensures NoneStuck(Write(s, p, fd, text, length, priority).0)
  {
    var t := Write(s, p, fd, text, length, priority).0;
    if t != s {
      LookupLinked(s, p, fd);
      var m := s.descs[Lookup(s, p, fd).value].mq;
      LastClass(s, m);
      AtClass(s, m, priority);
      forall n | n in s.mqList
        ensures Stuck(t, n) == Stuck(s, n)
      {
        PutStuck(s, m, priority, Message(text, length), n);
      }
    }
  }

  /** A message put in a class that reads look at is not stuck, in its message queue or another. */
  lemma PutStuck(s: Mail, m: MqBlock, rank: int, message: Message, n: MqBlock)
    requires MailInv(s) && m in s.mqList && n in s.mqList && 0 <= rank < s.priorities[m] && s.freeMsgs != []
    ensures Stuck(Put(s, m, QueueAt(s, m, rank), message), n) == Stuck(s, n)
  {
    LastClass(s, n);
    AtClass(s, m, rank);
    QueuesApart(s, n);
    SameQueueAt(s, Put(s, m, QueueAt(s, m, rank), message), n, s.priorities[n]);
  }

  lemma ReadUnstuck(s: Mail, p: Block, fd: int, bufSize: int)
    requires MailInv(s) && bufSize >= MAX_MESSAGE_LENGTH && NoneStuck(s)
    ensures NoneStuck(Read(s, p, fd, bufSize).0)
  {
    hide MailInv, Stuck;
    var (t, r) := Read(s, p, fd, bufSize);
    if Lookup(s, p, fd).Some? && r.Received? {
      var m := s.descs[Lookup(s, p, fd).value].mq;
      LookupLinked(s, p, fd);
      BigRead(s, p, fd, bufSize);
      forall n | n in s.mqList
        ensures Stuck(t, n) == Stuck(s, n)
      {
        GetStuck(s, m, r.rank, n);
      }
    } else if Lookup(s, p, fd).Some? {
      BigRead(s, p, fd, bufSize);
    }
  }

  lemma UnlinkUnstuck(s: Mail, id: int)
    requires MailInv(s) && NoneStuck(s)
    ensures NoneStuck(Unlink(s, id).0)
  {
    hide MailInv, Stuck;
    var t := Unlink(s, id).0;
    forall n | n in t.mqList
      ensures n in s.mqList && Stuck(t, n) == Stuck(s, n)
    {
      UnlinkOthers(s, id, n);
    }
  }

  lemma StepUnstuck(s: Mail, step: MailStep)
    requires MailInv(s) && Permitted(s, step) && Proper(s, step) && NoneStuck(s)
    ensures NoneStuck(After(s, step))
  {
    hide MailInv, Open, Write, Read, Unlink;
    match step
    case OpenStep(p, id, flags, priority) => OpenUnstuck(s, p, id, flags, priority);
    case WriteStep(p, fd, text, length, priority) => WriteUnstuck(s, p, fd, text, length, priority);
    case ReadStep(p, fd, bufSize) => ReadUnstuck(s, p, fd, bufSize);
    case CloseStep(p, fd) => SameUnstuck(s, After(s, step));
    case UnlinkStep(id) => UnlinkUnstuck(s, id);
    case NewProcessStep(p) => SameUnstuck(s, After(s, step));
  }

  lemma SameUnstuck(s: Mail, t: Mail)
    requires NoneStuck(s) && t.mqList == s.mqList && t.queuesOf == s.queuesOf && t.classes == s.classes
    requires t.priorities == s.priorities && t.msgsOf == s.msgsOf && t.lost == s.lost
    ensures NoneStuck(t)
  {
    hide Stuck;
    forall m | m in s.mqList
      ensures Stuck(t, m) == Stuck(s, m)
    {
      SameStuck(s, t, m);
    }
  }

  lemma {:induction false} RunUnstuck(s: Mail, steps: seq<MailStep>)
    requires MailInv(s) && Legal(s, steps) && AllProper(s, steps) && NoneStuck(s)
    ensures NoneStuck(Run(s, steps))
    decreases |steps|
  {
    hide MailInv, NoneStuck, After, Proper, Permitted;
    if steps != [] {
      StepKeeps(s, steps[0]);
      StepUnstuck(s, steps[0]);
      RunUnstuck(After(s, steps[0]), steps[1..]);
    }
  }

  // ---- reading empty, closing and unlinking

  lemma {:induction false} ReadsFrame(s: Mail, p: Block, fd: int, n: nat)
    requires MailInv(s)
    ensures var t := Reads(s, p, fd, n);
            MailInv(t)
            && t == s.(msgsOf := t.msgsOf, nums := t.nums, freeMsgs := t.freeMsgs, taken := t.taken, lost := t.lost)
    decreases n
  {
    hide MailInv;
    if n > 0 {
      ReadKeeps(s, p, fd, MAX_MESSAGE_LENGTH);
      if Lookup(s, p, fd).Some? {
        ReadFromFrame(s, s.descs[Lookup(s, p, fd).value].mq, 0, MAX_MESSAGE_LENGTH);
      }
      ReadsFrame(Read(s, p, fd, MAX_MESSAGE_LENGTH).0, p, fd, n - 1);
    }
  }

  /** The last process that has a message queue open reads it empty, closes it, and unlinks it. */
  lemma DrainCloseUnlink(s: Mail, p: Block, fd: int)
    requires MailInv(s) && Lookup(s, p, fd).Some?
    requires var d := Lookup(s, p, fd).value; var m := s.descs[d].mq;
             s.descsOf[m] == [d] && Stuck(s, m) == 0
    ensures var m := s.descs[Lookup(s, p, fd).value].mq;
            s.nums[m] >= 0 && Unlink(Close(Reads(s, p, fd, s.nums[m]), p, fd).0, s.ids[m]).1 == Returned(0)
  {
    hide MailInv, Stuck;
    var d := Lookup(s, p, fd).value;
    var m := s.descs[d].mq;
    LookupLinked(s, p, fd);
    DrainedIff(s, p, fd);
    ReadsFrame(s, p, fd, s.nums[m]);
    var t := Reads(s, p, fd, s.nums[m]);
    SameByFd(s, t, s.owned[p], fd);
    CloseKeeps(t, p, fd);
    hide Reads, ByFd, Unlink;
    var u := Close(t, p, fd).0;
    assert u.descsOf[m] == [] && u.nums[m] == 0 && m in u.mqList && u.ids[m] == s.ids[m];
    UnlinkSucceedsIff(u, s.ids[m]);
  }

  /** After any run of proper use from the start, that succeeds. */
  lemma ProperUseUnlinks(s: Mail, steps: seq<MailStep>, p: Block, fd: int)
    requires Boot(s) && Legal(s, steps) && AllProper(s, steps)
    requires var t := Run(s, steps); var d := Lookup(t, p, fd);
             d.Some? && t.descsOf[t.descs[d.value].mq] == [d.value]
    ensures var t := Run(s, steps); var m := t.descs[Lookup(t, p, fd).value].mq;
            Stuck(t, m) == 0 && t.nums[m] >= 0
            && Unlink(Close(Reads(t, p, fd, t.nums[m]), p, fd).0, t.ids[m]).1 == Returned(0)
  {
    hide MailInv, Legal, AllProper, Run, Stuck, Reads, Unlink, Close, Lookup;
    BootHolds(s);
    assert NoneStuck(s);
    hide Boot;
    RunKeeps(s, steps);
    RunUnstuck(s, steps);
    var t := Run(s, steps);
    LookupLinked(t, p, fd);
    DrainCloseUnlink(t, p, fd);
  }
}
