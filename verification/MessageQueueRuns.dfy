/** Runs of message queue calls: what they conserve, in which order messages come out, which messages never do. */
module MessageQueueRuns {
  import opened Bags
  import opened Timers
  import opened Processes
  import opened MessageQueues
  import opened MessageQueueLaws
  import opened MessageQueueSteps
  import opened MessageQueueReads

  datatype MailStep =
    | OpenStep(p: Block, id: int, flags: int, priority: int)
    | WriteStep(p: Block, fd: int, text: int, length: int, priority: int)
    | ReadStep(p: Block, fd: int, bufSize: int)
    | CloseStep(p: Block, fd: int)
    | UnlinkStep(id: int)
    | NewProcessStep(p: Block)

  /** Message queues are created one at a time: with another one in the list, the new lists are malformed. */
  predicate Permitted(s: Mail, step: MailStep) {
    step.OpenStep? && Creates(s, step.p, step.id, step.flags, step.priority) ==> s.mqList == []
  }

  function After(s: Mail, step: MailStep): Mail
    requires Permitted(s, step)
  {
    match step
    case OpenStep(p, id, flags, priority) => Open(s, p, id, flags, priority).0
    case WriteStep(p, fd, text, length, priority) => Write(s, p, fd, text, length, priority).0
    case ReadStep(p, fd, bufSize) => Read(s, p, fd, bufSize).0
    case CloseStep(p, fd) => Close(s, p, fd).0
    case UnlinkStep(id) => Unlink(s, id).0
    case NewProcessStep(p) => NewProcess(s, p)
  }

  predicate Legal(s: Mail, steps: seq<MailStep>)
    decreases |steps|
  {
    steps == [] || (Permitted(s, steps[0]) && Legal(After(s, steps[0]), steps[1..]))
  }

  function Run(s: Mail, steps: seq<MailStep>): Mail
    requires Legal(s, steps)
    decreases |steps|
  {
    if steps == [] then s else Run(After(s, steps[0]), steps[1..])
  }

  /** One run after another. */
  lemma {:induction false} RunConcat(s: Mail, a: seq<MailStep>, b: seq<MailStep>)
    requires Legal(s, a) && Legal(Run(s, a), b)
    ensures Legal(s, a + b) && Run(s, a + b) == Run(Run(s, a), b)
    decreases |a|
  {
    hide After, Permitted;
    if a == [] {
      assert a + b == b;
    } else {
      assert (a + b)[1..] == a[1..] + b;
      RunConcat(After(s, a[0]), a[1..], b);
    }
  }

  lemma StepKeeps(s: Mail, step: MailStep)
    requires MailInv(s) && Permitted(s, step)
    ensures MailInv(After(s, step))
  {
    hide MailInv;
    match step
    case OpenStep(p, id, flags, priority) => OpenKeeps(s, p, id, flags, priority);
    case WriteStep(p, fd, text, length, priority) => WriteKeeps(s, p, fd, text, length, priority);
    case ReadStep(p, fd, bufSize) => ReadKeeps(s, p, fd, bufSize);
    case CloseStep(p, fd) => CloseKeeps(s, p, fd);
    case UnlinkStep(id) => UnlinkKeeps(s, id);
    case NewProcessStep(p) => NewProcessKeeps(s, p);
  }

  lemma {:induction false} RunKeeps(s: Mail, steps: seq<MailStep>)
    requires MailInv(s) && Legal(s, steps)
    ensures MailInv(Run(s, steps))
    decreases |steps|
  {
    hide MailInv;
    if steps != [] {
      StepKeeps(s, steps[0]);
      RunKeeps(After(s, steps[0]), steps[1..]);
    }
  }

  // ---- start

  ghost predicate Boot(s: Mail) {
    && s.mqList == [] && s.unlisted == []
    && AllOf(s.freeMqs, 0, MAX_NUM_MQS) && AllOf(s.freeQueues, 0, MAX_NUM_QUEUES)
    && AllOf(s.freeMsgs, 0, MAX_NUM_MESSAGES) && AllOf(s.freeDescs, 0, MAX_NUM_PROCESSES)
    && (forall m: MqBlock :: s.queuesOf[m] == [] && s.descsOf[m] == [] && s.lost[m] == [])
    && (forall q: QueueBlock :: s.msgsOf[q] == [] && s.written[q] == [] && s.taken[q] == [])
    && (forall p: Block :: s.owned[p] == [] && s.lastFd[p] == 0)
  }

  lemma BootHolds(s: Mail)
    requires Boot(s)
    ensures MailInv(s)
  {
    hide BlocksPlaced, Counted, InOrder;
    BootPlaced(s);
    BootCounted(s);
    BootFifo(s);
  }

  lemma BootPlaced(s: Mail)
    requires Boot(s)
    ensures BlocksPlaced(s)
  {
    hide AllOf, Sum;
    SumEmpty<QueueBlock>(s.queuesOf);
    SumEmpty<MsgBlock>(s.msgsOf);
    SumEmpty<MsgBlock>(s.lost);
    SumEmpty<Block>(s.descsOf);
    AllOfBag(s.freeMqs, 0, MAX_NUM_MQS);
    AllOfBag(s.freeQueues, 0, MAX_NUM_QUEUES);
    AllOfBag(s.freeMsgs, 0, MAX_NUM_MESSAGES);
    AllOfBag(s.freeDescs, 0, MAX_NUM_PROCESSES);
  }

  lemma BootCounted(s: Mail)
    requires Boot(s)
    ensures Counted(s)
  {
    AllOfBag(s.freeMsgs, 0, MAX_NUM_MESSAGES);
  }

  lemma BootFifo(s: Mail)
    requires Boot(s)
    ensures InOrder(s)
  {
    hide AllOf;
    forall q: QueueBlock
      ensures s.written[q] == Outcomes(s.taken[q]) + Contents(s.messages, s.msgsOf[q])
    {
    }
  }

  /** In every state that calls can reach from the start, message blocks in use are the sum of num_messages, and each
      num_messages is in 0..128 and counts the messages queued and, besides, those dropped by short buffers. */
  lemma MessagesConserved(s: Mail, steps: seq<MailStep>)
    requires Boot(s) && Legal(s, steps)
    ensures var t := Run(s, steps);
            && |t.freeMsgs| + Total(t.nums, t.mqList) == MAX_NUM_MESSAGES
            && forall m :: m in t.mqList ==>
                 0 <= t.nums[m] <= MAX_NUM_MESSAGES_PER_MQ && t.nums[m] == Queued(t, m) + |t.lost[m]|
  {
    BootHolds(s);
    RunKeeps(s, steps);
  }

  /** Whatever the buffer sizes, each queue is first in, first out since its creation. */
  lemma FirstInFirstOut(s: Mail, steps: seq<MailStep>, q: QueueBlock)
    requires Boot(s) && Legal(s, steps)
    ensures var t := Run(s, steps);
            t.written[q] == Outcomes(t.taken[q]) + Contents(t.messages, t.msgsOf[q])
  {
    BootHolds(s);
    RunKeeps(s, steps);
  }

  // ---- runs without short buffers lose nothing

  ghost predicate AllDelivered(s: Mail) {
    && (forall q: QueueBlock, i :: 0 <= i < |s.taken[q]| ==> s.taken[q][i].delivered)
    && (forall m: MqBlock :: s.lost[m] == [])
  }

  predicate BigBuffers(steps: seq<MailStep>) {
    forall i :: 0 <= i < |steps| ==> steps[i].ReadStep? ==> steps[i].bufSize >= MAX_MESSAGE_LENGTH
  }

  lemma {:induction false} AddQueuesDelivered(s: Mail, m: MqBlock, i: nat, priority: int)
    requires AllDelivered(s)
    ensures AllDelivered(AddQueues(s, m, i, priority))
    decreases priority - i
  {
    if i <= priority && s.freeQueues != [] {
      AddQueuesDelivered(AddQueue(s, m, i), m, i + 1, priority);
    }
  }

  lemma {:induction false} DropQueuesFrame(s: Mail, m: MqBlock, i: nat)
    ensures var t := DropQueues(s, m, i);
            && t == s.(queuesOf := s.queuesOf[m := t.queuesOf[m]], freeQueues := t.freeQueues)
    decreases s.priorities[m] - i
  {
    if i <= s.priorities[m] && s.queuesOf[m] != [] {
      DropQueuesFrame(DropQueue(s, m), m, i + 1);
    }
  }

  lemma GetDelivered(s: Mail, m: MqBlock, q: QueueBlock)
    requires AllDelivered(s) && s.msgsOf[q] != []
    ensures AllDelivered(Get(s, m, q))
  {
  }

  lemma StepDelivers(s: Mail, step: MailStep)
    requires MailInv(s) && Permitted(s, step) && AllDelivered(s) && BigBuffers([step])
    ensures AllDelivered(After(s, step))
  {
    hide MailInv;
    match step
    case OpenStep(p, id, flags, priority) =>
      if Creates(s, p, id, flags, priority) {
        AddQueuesDelivered(NewMq(s, id, priority), s.freeMqs[0], 0, priority);
      }
    case ReadStep(p, fd, bufSize) =>
      assert [step][0].bufSize >= MAX_MESSAGE_LENGTH;
      if Lookup(s, p, fd).Some? {
        BigRead(s, p, fd, bufSize);
        var m := s.descs[Lookup(s, p, fd).value].mq;
        var r := Read(s, p, fd, bufSize).1;
        if r.Received? {
          GetDelivered(s, m, QueueAt(s, m, r.rank));
        }
      }
    case UnlinkStep(id) =>
      var m := ById(s, s.mqList, id);
      if m.Some? {
        DropQueuesFrame(Delist(s, m.value), m.value, 0);
      }
    case _ =>
  }

  lemma {:induction false} RunDelivers(s: Mail, steps: seq<MailStep>)
    requires MailInv(s) && AllDelivered(s) && Legal(s, steps) && BigBuffers(steps)
    ensures AllDelivered(Run(s, steps))
    decreases |steps|
  {
    hide MailInv;
    hide AllDelivered;
    if steps != [] {
      assert BigBuffers([steps[0]]);
      assert forall i :: 0 <= i < |steps[1..]| ==> steps[1..][i] == steps[i + 1];
      StepKeeps(s, steps[0]);
      StepDelivers(s, steps[0]);
      RunDelivers(After(s, steps[0]), steps[1..]);
    }
  }

  /** While every read has a buffer of MAX_MESSAGE_LENGTH, no message is dropped: what readers got from a queue is
      a prefix of what was written to it, the rest is still there, and num_messages counts no more than that. */
  lemma NothingLost(s: Mail, steps: seq<MailStep>)
    requires MailInv(s) && AllDelivered(s) && Legal(s, steps) && BigBuffers(steps)
    ensures var t := Run(s, steps);
            && AllDelivered(t)
            && (forall q: QueueBlock :: Outcomes(t.taken[q]) <= t.written[q]
                                        && t.written[q][|t.taken[q]|..] == Contents(t.messages, t.msgsOf[q]))
            && (forall m :: m in t.mqList ==> t.nums[m] == Queued(t, m))
  {
    hide MailInv, AllDelivered, Queued;
    RunKeeps(s, steps);
    RunDelivers(s, steps);
    DeliveredArePrefix(Run(s, steps));
    DeliveredAreCounted(Run(s, steps));
  }

  lemma DeliveredArePrefix(s: Mail)
    requires MailInv(s)
    ensures forall q: QueueBlock :: Outcomes(s.taken[q]) <= s.written[q]
                                    && s.written[q][|s.taken[q]|..] == Contents(s.messages, s.msgsOf[q])
  {
    hide BlocksPlaced, Ranked, Counted, DescsLinked, IdsDistinct, LengthsBounded;
    assert forall q: QueueBlock :: s.written[q] == Outcomes(s.taken[q]) + Contents(s.messages, s.msgsOf[q]);
  }

  lemma DeliveredAreCounted(s: Mail)
    requires MailInv(s) && AllDelivered(s)
    ensures forall m :: m in s.mqList ==> s.nums[m] == Queued(s, m)
  {
    hide BlocksPlaced, Ranked, InOrder, DescsLinked, IdsDistinct, LengthsBounded, Queued;
  }

  // ---- messages that stay

  lemma GetStuck(s: Mail, m: MqBlock, k: int, n: MqBlock)
    requires MailInv(s) && m in s.mqList && n in s.mqList && 0 <= k < s.priorities[m]
    requires s.msgsOf[QueueAt(s, m, k)] != []
    ensures Stuck(Get(s, m, QueueAt(s, m, k)), n) == Stuck(s, n)
  {
    LastClass(s, n);
    AtClass(s, m, k);
    QueuesApart(s, n);
    SameQueueAt(s, Get(s, m, QueueAt(s, m, k)), n, s.priorities[n]);
  }

  lemma LastClass(s: Mail, m: MqBlock)
    requires MailInv(s) && m in s.mqList
    ensures s.priorities[m] >= 0
    ensures QueueAt(s, m, s.priorities[m]) in s.queuesOf[m]
    ensures s.classes[QueueAt(s, m, s.priorities[m])] == s.priorities[m]
  {
    ListedClassFound(s, m, 0);
    AtClass(s, m, s.priorities[m]);
  }

  lemma ReadStuck(s: Mail, p: Block, fd: int, bufSize: int, n: MqBlock)
    requires MailInv(s) && n in s.mqList && Lookup(s, p, fd).Some?
    ensures Stuck(Read(s, p, fd, bufSize).0, n) >= Stuck(s, n)
  {
    var m := s.descs[Lookup(s, p, fd).value].mq;
    var (t, r) := Read(s, p, fd, bufSize);
    ReadScans(s, p, fd, bufSize);
    LastClass(s, n);
    QueuesApart(s, n);
    SameQueueAt(s, t, n, s.priorities[n]);
    hide MailInv;
    assert !Passed(s, m, 0, r, QueueAt(s, n, s.priorities[n]));
  }

  /** A message in the last class, or dropped, stays with its message queue, which cannot be unlinked. */
  lemma StuckStays(s: Mail, step: MailStep, n: MqBlock)
    requires MailInv(s) && Permitted(s, step) && n in s.mqList && Stuck(s, n) > 0
    ensures n in After(s, step).mqList && Stuck(After(s, step), n) >= Stuck(s, n)
  {
    hide MailInv;
    var t := After(s, step);
    match step
    case OpenStep(p, id, flags, priority) =>
      SameQueueAt(s, t, n, s.priorities[n]);
    case WriteStep(p, fd, text, length, priority) =>
      SameQueueAt(s, t, n, s.priorities[n]);
    case ReadStep(p, fd, bufSize) =>
      if Lookup(s, p, fd).Some? {
        ReadScans(s, p, fd, bufSize);
        ReadStuck(s, p, fd, bufSize, n);
      }
    case CloseStep(p, fd) =>
      SameQueueAt(s, t, n, s.priorities[n]);
    case UnlinkStep(id) =>
      UnlinkStuck(s, id, n);
    case NewProcessStep(p) =>
      SameQueueAt(s, t, n, s.priorities[n]);
  }

  /** The message queues that an unlink leaves in the list keep what they had. */
  lemma UnlinkOthers(s: Mail, id: int, n: MqBlock)
    requires MailInv(s) && n in Unlink(s, id).0.mqList
    ensures n in s.mqList && Stuck(Unlink(s, id).0, n) == Stuck(s, n)
  {
    var t := Unlink(s, id).0;
    var m := ById(s, s.mqList, id);
    ByIdFinds(s, s.mqList, id);
    if m.Some? && s.nums[m.value] == 0 && s.descsOf[m.value] == [] {
      DelistPlaced(s, m.value);
      DropQueuesFrame(Delist(s, m.value), m.value, 0);
      hide MailInv, Stuck;
      SameStuck(s, t, n);
    }
  }

  lemma UnlinkStuck(s: Mail, id: int, n: MqBlock)
    requires MailInv(s) && n in s.mqList && Stuck(s, n) > 0
    ensures n in Unlink(s, id).0.mqList && Stuck(Unlink(s, id).0, n) == Stuck(s, n)
  {
    var m := ById(s, s.mqList, id);
    ByIdFinds(s, s.mqList, id);
    if m.Some? && s.nums[m.value] == 0 && s.descsOf[m.value] == [] {
      StuckIsCounted(s, m.value);
      DelistPlaced(s, m.value);
      DropQueuesFrame(Delist(s, m.value), m.value, 0);
      hide MailInv, Stuck;
      assert n in Unlink(s, id).0.mqList;
    }
    UnlinkOthers(s, id, n);
  }

  lemma SameStuck(s: Mail, t: Mail, n: MqBlock)
    requires t.queuesOf[n] == s.queuesOf[n] && t.classes == s.classes && t.priorities == s.priorities
    requires t.msgsOf == s.msgsOf && t.lost == s.lost
    ensures Stuck(t, n) == Stuck(s, n)
  {
    SameQueueAt(s, t, n, s.priorities[n]);
  }

  /** Whatever is called from then on. */
  lemma {:induction false} StuckForever(s: Mail, steps: seq<MailStep>, n: MqBlock)
    requires MailInv(s) && Legal(s, steps) && n in s.mqList && Stuck(s, n) > 0
    ensures n in Run(s, steps).mqList && Run(s, steps).nums[n] > 0
    decreases |steps|
  {
    if steps == [] {
      StuckIsCounted(s, n);
    } else {
      hide MailInv, Stuck;
      StepKeeps(s, steps[0]);
      StuckStays(s, steps[0], n);
      StuckForever(After(s, steps[0]), steps[1..], n);
    }
  }

  // ---- reading a message queue empty

  /** n reads by process p through fd, each with a buffer of MAX_MESSAGE_LENGTH. */
  function Reads(s: Mail, p: Block, fd: int, n: nat): Mail
    decreases n
  {
    if n == 0 then s else Reads(Read(s, p, fd, MAX_MESSAGE_LENGTH).0, p, fd, n - 1)
  }

  lemma BigReadCounts(s: Mail, p: Block, fd: int)
    requires MailInv(s) && Lookup(s, p, fd).Some?
    ensures var d := Lookup(s, p, fd); var m := s.descs[d.value].mq; var t := Read(s, p, fd, MAX_MESSAGE_LENGTH).0;
            && MailInv(t) && m in s.mqList && Lookup(t, p, fd) == d && t.descs == s.descs && Stuck(t, m) == Stuck(s, m)
            && s.nums[m] >= Stuck(s, m) && t.nums[m] == if s.nums[m] > Stuck(s, m) then s.nums[m] - 1 else s.nums[m]
  {
    hide MailInv, Stuck, FirstReadable;
    var m := s.descs[Lookup(s, p, fd).value].mq;
    var r := Read(s, p, fd, MAX_MESSAGE_LENGTH).1;
    LookupLinked(s, p, fd);
    StuckIsCounted(s, m);
    ReadKeeps(s, p, fd, MAX_MESSAGE_LENGTH);
    BigRead(s, p, fd, MAX_MESSAGE_LENGTH);
    if r.Received? {
      GetStuck(s, m, r.rank, m);
      SameByFd(s, Read(s, p, fd, MAX_MESSAGE_LENGTH).0, s.owned[p], fd);
    }
  }

  lemma {:induction false} SameByFd(s: Mail, t: Mail, ds: seq<Block>, fd: int)
    requires t.descs == s.descs
    ensures ByFd(t, ds, fd) == ByFd(s, ds, fd)
  {
    if ds != [] {
      SameByFd(s, t, ds[1..], fd);
    }
  }

  lemma {:induction false} ReadsCount(s: Mail, p: Block, fd: int, n: nat)
    requires MailInv(s) && Lookup(s, p, fd).Some?
    ensures var m := s.descs[Lookup(s, p, fd).value].mq; var t := Reads(s, p, fd, n);
            && s.nums[m] >= Stuck(s, m)
            && t.nums[m] == if s.nums[m] - n > Stuck(s, m) then s.nums[m] - n else Stuck(s, m)
    decreases n
  {
    hide MailInv, Stuck;
    BigReadCounts(s, p, fd);
    if n > 0 {
      ReadsCount(Read(s, p, fd, MAX_MESSAGE_LENGTH).0, p, fd, n - 1);
    }
  }

  /** As many reads as there are messages make a message queue ready to unlink exactly when none of them is
      stuck. The interface promises it without the condition. */
  lemma DrainedIff(s: Mail, p: Block, fd: int)
    requires MailInv(s) && Lookup(s, p, fd).Some?
    ensures var m := s.descs[Lookup(s, p, fd).value].mq;
            s.nums[m] >= 0 && (Reads(s, p, fd, s.nums[m]).nums[m] == 0 <==> Stuck(s, m) == 0)
  {
    LookupLinked(s, p, fd);
    ReadsCount(s, p, fd, s.nums[s.descs[Lookup(s, p, fd).value].mq]);
  }

  // ---- writing

  /** The message queue a call means by fd. */
  function Named(s: Mail, p: Block, fd: int): MqBlock
    requires Lookup(s, p, fd).Some?
  {
    s.descs[Lookup(s, p, fd).value].mq
  }

  /** The message has joined its class of m at the end, it is counted, and nothing else is changed: every class of every
      message queue holds what it did. */
  ghost predicate Stored(s: Mail, t: Mail, m: MqBlock, rank: int, message: Message) {
    && t == s.(freeMsgs := t.freeMsgs, messages := t.messages, msgsOf := t.msgsOf, written := t.written,
               nums := s.nums[m := s.nums[m] + 1])
    && |t.freeMsgs| == |s.freeMsgs| - 1
    && forall n, k :: n in s.mqList && 0 <= k <= s.priorities[n] ==>
         InClass(t, n, k) == InClass(s, n, k) + if n == m && k == rank then [message] else []
  }

  /** What a write does. With a bad text, length or fd it fails. Otherwise the message joins its class, which is its
      priority if that is one of those the message queue was made for, and the last class if not; unless the message
      queue is full, which the return value does not tell from success in class 0, or the pool is empty. A failure
      changes nothing. */
  lemma WriteOutcome(s: Mail, p: Block, fd: int, text: int, length: int, priority: int)
    requires MailInv(s)
    ensures var (t, r) := Write(s, p, fd, text, length, priority);
            if text == 0 || !(0 <= length <= MAX_MESSAGE_LENGTH) || Lookup(s, p, fd).None?
            then t == s && r == Returned(EMQWRITE)
            else
              var m := Named(s, p, fd);
              var rank := if 0 <= priority < s.priorities[m] then priority else s.priorities[m];
              if s.nums[m] == MAX_NUM_MESSAGES_PER_MQ then t == s && r == Returned(0)
              else if Total(s.nums, s.mqList) == MAX_NUM_MESSAGES then t == s && r == Returned(EMQWRITE)
              else r == Returned(rank) && MailInv(t) && Stored(s, t, m, rank, Message(text, length))
  {
    hide MailInv, QueueAt, Stored, Lookup;
    if text != 0 && 0 <= length <= MAX_MESSAGE_LENGTH && Lookup(s, p, fd).Some? {
      var m := Named(s, p, fd);
      WriteKeeps(s, p, fd, text, length, priority);
      WriteBounds(s, p, fd);
      if s.nums[m] != MAX_NUM_MESSAGES_PER_MQ && s.freeMsgs != [] {
        var rank := if 0 <= priority < s.priorities[m] then priority else s.priorities[m];
        AtClass(s, m, rank);
        PutStores(s, m, rank, Message(text, length));
      }
    }
  }

  lemma WriteBounds(s: Mail, p: Block, fd: int)
    requires MailInv(s) && Lookup(s, p, fd).Some?
    ensures var m := Named(s, p, fd);
            m in s.mqList && s.nums[m] <= MAX_NUM_MESSAGES_PER_MQ && s.priorities[m] >= 0
    ensures s.freeMsgs == [] <==> Total(s.nums, s.mqList) == MAX_NUM_MESSAGES
  {
    LookupLinked(s, p, fd);
    LastClass(s, Named(s, p, fd));
  }

  lemma PutStores(s: Mail, m: MqBlock, rank: int, message: Message)
    requires MailInv(s) && m in s.mqList && s.freeMsgs != [] && 0 <= rank <= s.priorities[m]
    ensures Stored(s, Put(s, m, QueueAt(s, m, rank), message), m, rank, message)
  {
    hide MailInv, InClass, QueueAt;
    forall n, k | n in s.mqList && 0 <= k <= s.priorities[n]
      ensures InClass(Put(s, m, QueueAt(s, m, rank), message), n, k) ==
              InClass(s, n, k) + if n == m && k == rank then [message] else []
    {
      PutInClass(s, m, rank, message, n, k);
    }
  }

  lemma PutInClass(s: Mail, m: MqBlock, rank: int, message: Message, n: MqBlock, k: int)
    requires MailInv(s) && m in s.mqList && s.freeMsgs != [] && 0 <= rank <= s.priorities[m]
    requires n in s.mqList && 0 <= k <= s.priorities[n]
    ensures InClass(Put(s, m, QueueAt(s, m, rank), message), n, k) ==
            InClass(s, n, k) + if n == m && k == rank then [message] else []
  {
    var t := Put(s, m, QueueAt(s, m, rank), message);
    AtClass(s, n, k);
    AtClass(s, m, rank);
    QueuesApart(s, n);
    SameQueueAt(s, t, n, k);
    MessagesApart(s, QueueAt(s, n, k));
    hide MailInv, QueueAt;
    assert s.freeMsgs[0] !in s.msgsOf[QueueAt(s, n, k)];
  }

  /** A stored message is stuck at once exactly when its priority was not one of 0..priority-1. */
  lemma StuckWhenWrittenIff(s: Mail, p: Block, fd: int, text: int, length: int, priority: int)
    requires MailInv(s) && Lookup(s, p, fd).Some? && Write(s, p, fd, text, length, priority).0 != s
    ensures var m := s.descs[Lookup(s, p, fd).value].mq; var t := Write(s, p, fd, text, length, priority).0;
            Stuck(t, m) > Stuck(s, m) <==> !(0 <= priority < s.priorities[m])
  {
    LookupLinked(s, p, fd);
    var m := s.descs[Lookup(s, p, fd).value].mq;
    var rank := if 0 <= priority < s.priorities[m] then priority else s.priorities[m];
    LastClass(s, m);
    AtClass(s, m, s.priorities[m]);
    AtClass(s, m, rank);
    SameQueueAt(s, Write(s, p, fd, text, length, priority).0, m, s.priorities[m]);
  }

  // ---- creating

  /** The creation loop never takes more than the queues there are. */
  lemma {:induction false} AddQueuesFree(s: Mail, m: MqBlock, i: nat, priority: int)
    requires i <= priority + 1
    ensures var t := AddQueues(s, m, i, priority); var n := priority + 1 - i;
            && t.freeQueues == (if n <= |s.freeQueues| then s.freeQueues[n..] else [])
            && t.mqList == s.mqList && t.unlisted == s.unlisted
    decreases priority - i
  {
    if i <= priority && s.freeQueues != [] {
      AddQueuesFree(AddQueue(s, m, i), m, i + 1, priority);
    }
  }

  /** A creation leaves its message queue block, and every queue block, neither free nor in a list exactly when the
      pool has fewer than priority + 1 queues, as it always has for the accepted priority 64. */
  lemma CreationLeaksIff(s: Mail, p: Block, id: int, flags: int, priority: int)
    requires MailInv(s) && Creates(s, p, id, flags, priority) && s.mqList == []
    ensures var (t, r) := Open(s, p, id, flags, priority);
            && (t.unlisted != s.unlisted <==> priority + 1 > |s.freeQueues|)
            && (priority + 1 > |s.freeQueues| ==>
                  r == Returned(EMQOPEN) && t.mqList == [] && t.freeQueues == []
                  && t.unlisted == s.unlisted + [s.freeMqs[0]])
            && (priority == MAX_NUM_QUEUES ==> priority + 1 > |s.freeQueues|)
  {
    AddQueuesFree(NewMq(s, id, priority), s.freeMqs[0], 0, priority);
    ExactlySize(QueueBag(s), MAX_NUM_QUEUES);
  }

  lemma {:induction false} ReadFromFrame(s: Mail, m: MqBlock, i: nat, bufSize: int)
    ensures var t := ReadFrom(s, m, i, bufSize).0;
            t == s.(msgsOf := t.msgsOf, nums := t.nums, freeMsgs := t.freeMsgs, taken := t.taken, lost := t.lost)
    decreases s.priorities[m] - i
  {
    if i < s.priorities[m] {
      var q := ByClass(s, s.queuesOf[m], i);
      if q.Some? {
        ReadFromFrame(s, m, i + 1, bufSize);
        if s.msgsOf[q.value] != [] {
          ReadFromFrame(Drop(s, m, q.value), m, i + 1, bufSize);
        }
      }
    }
  }

  lemma StillNone(s: Mail, step: MailStep)
    requires s.mqList == [] && s.freeQueues == [] && Permitted(s, step)
    ensures After(s, step).mqList == [] && After(s, step).freeQueues == []
  {
    match step
    case OpenStep(p, id, flags, priority) =>
      if Creates(s, p, id, flags, priority) {
        AddQueuesFree(NewMq(s, id, priority), s.freeMqs[0], 0, priority);
      }
    case ReadStep(p, fd, bufSize) =>
      if Lookup(s, p, fd).Some? {
        ReadFromFrame(s, s.descs[Lookup(s, p, fd).value].mq, 0, bufSize);
      }
    case _ =>
  }

  /** After that there is no message queue ever again. */
  lemma {:induction false} LeakIsFinal(s: Mail, steps: seq<MailStep>)
    requires s.mqList == [] && s.freeQueues == [] && Legal(s, steps)
    ensures Run(s, steps).mqList == [] && Run(s, steps).freeQueues == []
    decreases |steps|
  {
    if steps != [] {
      StillNone(s, steps[0]);
      LeakIsFinal(After(s, steps[0]), steps[1..]);
    }
  }

  // ---- pools full again

  lemma AllEmptyBag<T>(free: seq<T>, lists: seq<seq<T>>)
    requires forall i :: 0 <= i < |lists| ==> lists[i] == []
    ensures multiset(free) + Sum(lists) == multiset(free)
  {
    SumEmpty(lists);
  }

  /** With no message queue left, and none leaked, every block of every pool is free. */
  lemma PoolsFull(s: Mail)
    requires MailInv(s) && s.mqList == [] && s.unlisted == []
    ensures |s.freeMqs| == MAX_NUM_MQS && |s.freeQueues| == MAX_NUM_QUEUES
    ensures |s.freeMsgs| == MAX_NUM_MESSAGES && |s.freeDescs| == MAX_NUM_PROCESSES
  {
    ExactlySize(MqBag(s), MAX_NUM_MQS);
    forall m: MqBlock
      ensures m in s.freeMqs
    {
      assert MqBag(s)[m] == 1;
      assert multiset(s.freeMqs)[m] == 1;
    }
    AllEmptyBag<QueueBlock>(s.freeQueues, s.queuesOf);
    ExactlySize(QueueBag(s), MAX_NUM_QUEUES);
    assert forall m: MqBlock :: s.descsOf[m] == [];
    AllEmptyBag<Block>(s.freeDescs, s.descsOf);
    ExactlySize(DescBag(s), MAX_NUM_PROCESSES);
  }

  /** No creation in the run asks for more queues than are free. */
  predicate EnoughQueues(s: Mail, steps: seq<MailStep>)
    requires Legal(s, steps)
    decreases |steps|
  {
    steps == [] ||
    (&& (steps[0].OpenStep? && Creates(s, steps[0].p, steps[0].id, steps[0].flags, steps[0].priority) ==>
           steps[0].priority + 1 <= |s.freeQueues|)
     && EnoughQueues(After(s, steps[0]), steps[1..]))
  }

  lemma StepListsAll(s: Mail, step: MailStep)
    requires MailInv(s) && Permitted(s, step) && s.unlisted == []
    requires step.OpenStep? && Creates(s, step.p, step.id, step.flags, step.priority) ==>
               step.priority + 1 <= |s.freeQueues|
    ensures After(s, step).unlisted == []
  {
    hide MailInv;
    match step
    case OpenStep(p, id, flags, priority) =>
      if Creates(s, p, id, flags, priority) {
        CreationLeaksIff(s, p, id, flags, priority);
      }
    case ReadStep(p, fd, bufSize) =>
      if Lookup(s, p, fd).Some? {
        ReadFromFrame(s, s.descs[Lookup(s, p, fd).value].mq, 0, bufSize);
      }
    case UnlinkStep(id) =>
      var m := ById(s, s.mqList, id);
      if m.Some? {
        DropQueuesFrame(Delist(s, m.value), m.value, 0);
      }
    case _ =>
  }

  lemma {:induction false} ListsAll(s: Mail, steps: seq<MailStep>)
    requires MailInv(s) && s.unlisted == [] && Legal(s, steps) && EnoughQueues(s, steps)
    ensures Run(s, steps).unlisted == []
    decreases |steps|
  {
    hide MailInv;
    if steps != [] {
      StepKeeps(s, steps[0]);
      StepListsAll(s, steps[0]);
      ListsAll(After(s, steps[0]), steps[1..]);
    }
  }

  /** Every run that leaves no message queue has given every block back, if each creation found its queues. */
  lemma NothingLeaks(s: Mail, steps: seq<MailStep>)
    requires Boot(s) && Legal(s, steps) && EnoughQueues(s, steps) && Run(s, steps).mqList == []
    ensures var t := Run(s, steps);
            && |t.freeMqs| == MAX_NUM_MQS && |t.freeQueues| == MAX_NUM_QUEUES
            && |t.freeMsgs| == MAX_NUM_MESSAGES && |t.freeDescs| == MAX_NUM_PROCESSES
  {
    BootHolds(s);
    RunKeeps(s, steps);
    ListsAll(s, steps);
    PoolsFull(Run(s, steps));
  }

  // ---- create, close, unlink

  /** The free list after freeing the queues one after another. */
  function Restocked(qs: seq<QueueBlock>, free: seq<QueueBlock>): seq<QueueBlock> {
    if qs == [] then free else Restocked(qs[1..], [qs[0]] + free)
  }

  lemma {:induction false} AddQueuesRestock(s: Mail, m: MqBlock, i: nat, priority: int)
    requires forall q :: q in s.queuesOf[m] ==> s.msgsOf[q] == []
    ensures var t := AddQueues(s, m, i, priority);
            && Restocked(t.queuesOf[m], t.freeQueues) == Restocked(s.queuesOf[m], s.freeQueues)
            && forall q :: q in t.queuesOf[m] ==> t.msgsOf[q] == []
    decreases priority - i
  {
    if i <= priority && s.freeQueues != [] {
      var t := AddQueue(s, m, i);
      assert t.queuesOf[m][1..] == s.queuesOf[m];
      assert [s.freeQueues[0]] + t.freeQueues == s.freeQueues;
      AddQueuesRestock(t, m, i + 1, priority);
    }
  }

  lemma {:induction false} DropQueuesRestock(s: Mail, m: MqBlock, i: nat)
    requires |s.queuesOf[m]| == s.priorities[m] + 1 - i && forall q :: q in s.queuesOf[m] ==> s.msgsOf[q] == []
    ensures var t := DropQueues(s, m, i); t.queuesOf[m] == [] && t.freeQueues == Restocked(s.queuesOf[m], s.freeQueues)
    decreases s.priorities[m] - i
  {
    if s.queuesOf[m] != [] {
      DropQueuesRestock(DropQueue(s, m), m, i + 1);
    }
  }

  /** Who has a descriptor has a message queue in the list. */
  lemma OwnedListed(s: Mail, p: Block)
    requires MailInv(s)
    ensures s.owned[p] != [] ==> s.mqList != []
    ensures s.lastFd[p] == |s.owned[p]|
  {
    if s.owned[p] != [] {
      var d := s.owned[p][0];
      assert d in s.descsOf[s.descs[d].mq];
      assert s.descs[d].mq in s.mqList;
    }
  }

  /** The process's only descriptor comes and goes. */
  lemma AttachThenClose(s: Mail, p: Block, m: MqBlock)
    requires s.owned[p] == [] && s.lastFd[p] == 0 && s.descsOf[m] == [] && s.freeDescs != []
    ensures var (t, r) := Attach(s, p, m);
            r == Returned(0) && Close(t, p, 0) == (s.(descs := t.descs), Returned(0))
  {
    var t := Attach(s, p, m).0;
    var d := s.freeDescs[0];
    assert t.owned[p] == [d] && t.descsOf[m] == [d];
    assert ByFd(t, [d], 0) == Some(d);
    var u := Detach(t, p, d);
    assert u.owned == s.owned && u.descsOf == s.descsOf && u.lastFd == s.lastFd;
    assert u.freeDescs == s.freeDescs;
  }

  /** Unlinking the only message queue, when it is empty. */
  lemma UnlinkOnly(s: Mail, m: MqBlock, id: int)
    requires s.mqList == [m] && s.ids[m] == id && s.nums[m] == 0 && s.descsOf[m] == []
    requires |s.queuesOf[m]| == s.priorities[m] + 1 && forall q :: q in s.queuesOf[m] ==> s.msgsOf[q] == []
    ensures var (t, r) := Unlink(s, id);
            && r == Returned(0) && t.mqList == [] && t.unlisted == s.unlisted && t.freeMqs == [m] + s.freeMqs
            && t.freeQueues == Restocked(s.queuesOf[m], s.freeQueues) && t.queuesOf == s.queuesOf[m := []]
            && t.freeMsgs == s.freeMsgs && t.freeDescs == s.freeDescs && t.descsOf == s.descsOf
            && t.owned == s.owned && t.lastFd == s.lastFd
  {
    DropQueuesFrame(Delist(s, m), m, 0);
    DropQueuesRestock(Delist(s, m), m, 0);
  }

  lemma WithNewMqFrame(s: Mail, id: int, priority: nat)
    requires s.freeMqs != [] && s.queuesOf[s.freeMqs[0]] == [] && s.descsOf[s.freeMqs[0]] == []
    requires AddQueuesFrame(NewMq(s, id, priority), AddQueues(NewMq(s, id, priority), s.freeMqs[0], 0, priority),
                            s.freeMqs[0])
    ensures var m := s.freeMqs[0]; var t := WithNewMq(s, id, priority);
            && t.mqList == s.mqList + [m] && t.ids[m] == id && t.nums[m] == 0 && t.queuesOf[m := []] == s.queuesOf
            && t.freeMqs == s.freeMqs[1..] && t.unlisted == s.unlisted && t.freeMsgs == s.freeMsgs
            && t.freeDescs == s.freeDescs && t.descsOf == s.descsOf && t.owned == s.owned && t.lastFd == s.lastFd
  {
    hide AddQueues;
    var n := NewMq(s, id, priority);
    assert n.queuesOf == s.queuesOf && n.descsOf == s.descsOf;
  }

  lemma CreationOpens(s: Mail, p: Block, id: int, flags: int, priority: int)
    requires Creates(s, p, id, flags, priority) && s.mqList == [] && priority + 1 <= |s.freeQueues|
    ensures Open(s, p, id, flags, priority) == Attach(WithNewMq(s, id, priority), p, s.freeMqs[0])
  {
    hide AddQueues, Attach;
  }

  /** What the creation has built by the time it makes the descriptor: a message queue whose queues are empty,
      and would go back to the pool in the order they came from it. */
  lemma WithNewMqOnly(s: Mail, id: int, priority: nat)
    requires MailInv(s) && s.freeMqs != [] && priority + 1 <= |s.freeQueues| && s.mqList == []
    ensures var m := s.freeMqs[0]; var t := WithNewMq(s, id, priority);
            && s.queuesOf[m] == [] && t.descsOf[m] == []
            && t.priorities[m] == priority && |t.queuesOf[m]| == priority + 1
            && (forall q :: q in t.queuesOf[m] ==> t.msgsOf[q] == [])
            && Restocked(t.queuesOf[m], t.freeQueues) == s.freeQueues
    ensures AddQueuesFrame(NewMq(s, id, priority), AddQueues(NewMq(s, id, priority), s.freeMqs[0], 0, priority),
                           s.freeMqs[0])
    ensures s.descsOf[s.freeMqs[0]] == []
  {
    var m := s.freeMqs[0];
    MqsApart(s);
    assert s.queuesOf[m] == [];
    assert s.descsOf[m] == [];
    hide MailInv, Ranks, OnePerClass, Queued, AddQueues, Restocked;
    WithNewMqKeeps(s, id, priority);
    NewMqBuilds(s, id, priority);
    AddQueuesRestock(NewMq(s, id, priority), m, 0, priority);
    QueueCount(WithNewMq(s, id, priority), m);
    assert Restocked([], s.freeQueues) == s.freeQueues by { RestockedNone(s.freeQueues); }
  }

  lemma RestockedNone(free: seq<QueueBlock>)
    ensures Restocked([], free) == free
  {
  }

  /** Creating a message queue, closing it and unlinking it restores every list and every free list exactly. */
  lemma CreateCloseUnlink(s: Mail, p: Block, id: int, flags: int, priority: int)
    requires MailInv(s) && Creates(s, p, id, flags, priority) && s.mqList == []
    requires priority + 1 <= |s.freeQueues| && s.freeDescs != []
    ensures var (t1, r1) := Open(s, p, id, flags, priority);
            var (t2, r2) := Close(t1, p, r1.ret);
            var (t3, r3) := Unlink(t2, id);
            && r1 == Returned(0) && r2 == Returned(0) && r3 == Returned(0)
            && t3.freeMqs == s.freeMqs && t3.freeQueues == s.freeQueues && t3.freeMsgs == s.freeMsgs
            && t3.freeDescs == s.freeDescs
            && t3.mqList == s.mqList && t3.unlisted == s.unlisted && t3.queuesOf == s.queuesOf
            && t3.descsOf == s.descsOf
            && t3.owned == s.owned && t3.lastFd == s.lastFd
  {
    hide MailInv, WithNewMq, Unlink, Attach, Close, Open, AddQueues, AddQueuesFrame, NewMq, Restocked;
    var m := s.freeMqs[0];
    OwnedListed(s, p);
    WithNewMqOnly(s, id, priority);
    WithNewMqFrame(s, id, priority);
    var c := WithNewMq(s, id, priority);
    CreationOpens(s, p, id, flags, priority);
    AttachThenClose(c, p, m);
    UnlinkOnly(c.(descs := Attach(c, p, m).0.descs), m, id);
    assert [m] + s.freeMqs[1..] == s.freeMqs;
  }
}
