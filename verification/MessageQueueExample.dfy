/** Short runs from the start in which message queues do not behave as the comments say. */
module MessageQueueExample {
  import opened Bags
  import opened Timers
  import opened Processes
  import opened MessageQueues
  import opened MessageQueueLaws
  import opened MessageQueueSteps
  import opened MessageQueueReads
  import opened MessageQueueRuns
  import opened MessageQueueOpening

  /** Process p has m open as fd 0; m is the only message queue and has one readable class, holding these. */
  ghost predicate Holding(s: Mail, p: Block, m: MqBlock, messages: seq<Message>) {
    && Lookup(s, p, 0).Some? && s.descs[Lookup(s, p, 0).value].mq == m && s.mqList == [m]
    && s.nums[m] == |messages| && s.priorities[m] == 1 && InClass(s, m, 0) == messages
  }

  lemma BootCanOpen(s: Mail)
    requires Boot(s)
    ensures MailInv(s) && CanOpen(s, 0, 7, 1, 1) && Creates(s, 0, 7, 1, 1) && s.owned[0] == [] && s.mqList == []
  {
    BootHolds(s);
    assert CreateSet(1) && !ExclSet(1);
  }

  /** init creates message queue 7. */
  lemma CreateFirst(s: Mail) returns (m: MqBlock)
    requires Boot(s)
    ensures var (t, r) := Open(s, 0, 7, 1, 1); r == Returned(0) && MailInv(t) && Holding(t, 0, m, [])
  {
    BootCanOpen(s);
    m := s.freeMqs[0];
    OpenSucceedsIff(s, 0, 7, 1, 1);
    OpenAttaches(s, 0, 7, 1, 1);
    NewFdNamesItIff(s, 0, 7, 1, 1);
    OpenKeeps(s, 0, 7, 1, 1);
    WithNewMqOnly(s, 7, 1);
    WithNewMqFrame(s, 7, 1);
    hide MailInv, Boot, CanOpen, Creates, Open, WithNewMq, AddQueues, Restocked;
    var t := Open(s, 0, 7, 1, 1).0;
    assert t == Attach(WithNewMq(s, 7, 1), 0, m).0;
    hide Lookup, InClass;
    NothingQueued(t, m);
  }

  lemma WriteFrame(s: Mail, p: Block, fd: int, text: int, length: int, priority: int)
    ensures var t := Write(s, p, fd, text, length, priority).0;
            t.owned == s.owned && t.descs == s.descs && t.mqList == s.mqList && t.priorities == s.priorities
  {
  }

  /** It writes five characters to it. */
  lemma WriteNext(s: Mail, m: MqBlock, messages: seq<Message>)
    requires MailInv(s) && Holding(s, 0, m, messages) && |messages| < MAX_NUM_MESSAGES_PER_MQ
    ensures var (t, r) := Write(s, 0, 0, 1, 5, 0);
            r == Returned(0) && MailInv(t) && Holding(t, 0, m, messages + [Message(1, 5)])
  {
    var t := Write(s, 0, 0, 1, 5, 0).0;
    TotalOfOne(s.nums, m);
    WriteFrame(s, 0, 0, 1, 5, 0);
    WriteOutcome(s, 0, 0, 1, 5, 0);
    hide MailInv, InClass, Write;
    SameByFd(s, t, s.owned[0], 0);
    assert Lookup(t, 0, 0) == Lookup(s, 0, 0);
  }

  lemma TotalOfOne(w: seq<int>, m: nat)
    requires m < |w|
    ensures Total(w, [m]) == w[m]
  {
    assert Total(w, []) == 0;
  }

  /** A scan that nothing fits. */
  lemma ScannedInVain(s: Mail, m: MqBlock, bufSize: int, t: Mail, r: Reply)
    requires Scanned(s, m, 0, bufSize, t, r) && s.priorities[m] == 1 && !Fits(s, m, 0, bufSize)
    ensures r == Returned(0) && t.nums == s.nums && t.priorities == s.priorities && t.mqList == s.mqList
  {
    hide Passed, Fits, HeadTaken;
  }

  lemma ReadEmpties(s: Mail, m: MqBlock)
    requires MailInv(s) && Holding(s, 0, m, [Message(1, 5)])
    ensures InClass(Read(s, 0, 0, 4).0, m, 0) == []
  {
    hide MailInv, InClass, Read, Lookup;
    assert FirstReadable(s, m, 0);
    ReadIsFaithfulIff(s, 0, 0, 4, 0);
  }

  lemma NothingReadable(s: Mail, m: MqBlock)
    requires MailInv(s) && m in s.mqList && s.priorities[m] == 1 && InClass(s, m, 0) == []
    ensures Stuck(s, m) == s.nums[m]
  {
    hide MailInv, InClass, Stuck;
    assert forall k :: !FirstReadable(s, m, k);
    StuckIsCounted(s, m);
  }

  /** It reads with a buffer of four. */
  lemma ReadFirst(s: Mail, m: MqBlock)
    requires MailInv(s) && Holding(s, 0, m, [Message(1, 5)])
    ensures var (t, r) := Read(s, 0, 0, 4);
            && r == Returned(0) && t.nums[m] == 1 && InClass(t, m, 0) == []
            && MailInv(t) && m in t.mqList && Stuck(t, m) == 1
  {
    var (t, r) := Read(s, 0, 0, 4);
    hide MailInv, InClass, Read, Scanned, Lookup, Stuck;
    ReadEmpties(s, m);
    ReadScans(s, 0, 0, 4);
    ScannedInVain(s, m, 4, t, r);
    ReadKeeps(s, 0, 0, 4);
    NothingReadable(t, m);
  }

  /** The read returned 0, as if there were no message. The message is gone, and still counted, so that the message
      queue can never be unlinked: the interface promises an error and an unaffected queue. */
  lemma SmallBufferLosesMessage(s: Mail) returns (m: MqBlock)
    requires Boot(s)
    ensures var (s1, r1) := Open(s, 0, 7, 1, 1);
            var (s2, r2) := Write(s1, 0, 0, 1, 5, 0);
            var (s3, r3) := Read(s2, 0, 0, 4);
            && r1 == Returned(0) && r2 == Returned(0) && InClass(s2, m, 0) == [Message(1, 5)]
            && r3 == Returned(0) && s3.nums[m] == 1 && InClass(s3, m, 0) == []
            && MailInv(s3) && m in s3.mqList && Stuck(s3, m) == 1
  {
    BootCanOpen(s);
    hide Boot, Open, Write, Read, MailInv, Lookup, InClass, Stuck, Creates;
    m := CreateFirst(s);
    WriteNext(Open(s, 0, 7, 1, 1).0, m, []);
    assert [] + [Message(1, 5)] == [Message(1, 5)];
    ReadFirst(Write(Open(s, 0, 7, 1, 1).0, 0, 0, 1, 5, 0).0, m);
  }

  // ---- fds

  /** Message queue 7 exists, and the fds of process 0 are 0..n-1. */
  ghost predicate OpenTimes(s: Mail, n: nat) {
    && MailInv(s) && FdsInOrder(s, 0) && |s.owned[0]| == n && (exists m :: m in s.mqList && s.ids[m] == 7)
    && |s.freeDescs| == MAX_NUM_PROCESSES - n
  }

  lemma OpenOnce(s: Mail)
    requires Boot(s)
    ensures OpenTimes(Open(s, 0, 7, 1, 1).0, 1)
  {
    BootCanOpen(s);
    OpenAttaches(s, 0, 7, 1, 1);
    OpenKeeps(s, 0, 7, 1, 1);
    BootInOrder(s);
    OpenInOrder(s, 0, 7, 1, 1, 0);
    hide MailInv, CanOpen, Creates, Open, WithNewMq, FdsInOrder;
  }

  lemma OpenAgain(s: Mail, n: nat)
    requires OpenTimes(s, n) && n < MAX_NUM_MQDESCRIPTORS_PER_PROCESS
    ensures CanOpen(s, 0, 7, 0, 0) && !Creates(s, 0, 7, 0, 0)
    ensures Open(s, 0, 7, 0, 0).1 == Returned(n) && OpenTimes(Open(s, 0, 7, 0, 0).0, n + 1)
  {
    ByIdFinds(s, s.mqList, 7);
    assert !CreateSet(0);
    OpenSucceedsIff(s, 0, 7, 0, 0);
    OpenAttaches(s, 0, 7, 0, 0);
    OpenKeeps(s, 0, 7, 0, 0);
    OpenInOrder(s, 0, 7, 0, 0, 0);
    hide MailInv, CanOpen, Creates, Open, FdsInOrder;
    var t := Open(s, 0, 7, 0, 0).0;
    assert Target(s, 7) in t.mqList && t.ids[Target(s, 7)] == 7;
  }

  /** init opens message queue 7 twice, closes fd 0, and opens it again: it gets fd 1, which it has already, and which
      names the older descriptor. */
  lemma RepeatedFd(s: Mail)
    requires Boot(s)
    ensures var s1 := Open(s, 0, 7, 1, 1).0; var s2 := Open(s1, 0, 7, 0, 0).0;
            var s3 := Close(s2, 0, 0).0; var (s4, r) := Open(s3, 0, 7, 0, 0);
            && r == Returned(1)
            && Lookup(s2, 0, 1).Some? && Lookup(s3, 0, 1) == Lookup(s2, 0, 1)
            && s3.freeDescs[0] in s4.owned[0] && s4.descs[s3.freeDescs[0]].fd == 1
            && Lookup(s4, 0, 1) != Some(s3.freeDescs[0])
  {
    hide Boot, Open, Creates;
    BootCreates(s);
    OpenOnce(s);
    var s1 := Open(s, 0, 7, 1, 1).0;
    OpenAgain(s1, 1);
    CloseFirstOfTwo(Open(s1, 0, 7, 0, 0).0);
  }

  lemma BootCreates(s: Mail)
    requires Boot(s)
    ensures Creates(s, 0, 7, 1, 1) ==> s.mqList == []
  {
  }

  lemma CloseFirstOfTwo(s: Mail)
    requires OpenTimes(s, 2)
    ensures var t := Close(s, 0, 0).0; !Creates(t, 0, 7, 0, 0)
    ensures var t := Close(s, 0, 0).0; var (u, r) := Open(t, 0, 7, 0, 0);
            && r == Returned(1)
            && Lookup(s, 0, 1).Some? && Lookup(t, 0, 1) == Lookup(s, 0, 1)
            && t.freeDescs[0] in u.owned[0] && u.descs[t.freeDescs[0]].fd == 1
            && Lookup(u, 0, 1) != Some(t.freeDescs[0])
  {
    var t := Close(s, 0, 0).0;
    CloseKeeps(s, 0, 0);
    SecondRemains(s);
    hide MailInv, Open, Close, FdsInOrder, Lookup;
    CanOpenAgain(t);
    hide CanOpen, Creates;
    OpenSucceedsIff(t, 0, 7, 0, 0);
    NewHasFd(t);
    CloseThenOpenIff(s, 0, 0, 7, 0, 0);
  }

  lemma NewHasFd(s: Mail)
    requires MailInv(s) && CanOpen(s, 0, 7, 0, 0) && !Creates(s, 0, 7, 0, 0)
    ensures var t := Open(s, 0, 7, 0, 0).0; s.freeDescs[0] in t.owned[0] && t.descs[s.freeDescs[0]].fd == |s.owned[0]|
  {
    OwnedListed(s, 0);
    OpenAttaches(s, 0, 7, 0, 0);
    hide MailInv, Open;
  }

  lemma CanOpenAgain(s: Mail)
    requires |s.owned[0]| == 1 && s.freeDescs != [] && exists m :: m in s.mqList && s.ids[m] == 7
    ensures CanOpen(s, 0, 7, 0, 0) && !Creates(s, 0, 7, 0, 0)
  {
    assert !CreateSet(0);
  }

  /** With fds 0 and 1, closing 0 leaves 1. */
  lemma SecondRemains(s: Mail)
    requires OpenTimes(s, 2)
    ensures Lookup(s, 0, 1) == Some(s.owned[0][1])
    ensures var t := Close(s, 0, 0).0;
            && t.owned[0] == [s.owned[0][1]] && Lookup(t, 0, 1) == Some(s.owned[0][1])
            && t.mqList == s.mqList && t.ids == s.ids && t.freeDescs != []
  {
    hide MailInv;
    CloseAtIndex(s, 0, 0);
    FdAtIndex(s, s.owned[0], 0, 1);
    var t := Close(s, 0, 0).0;
    FdAtIndex(t, [s.owned[0][1]], 1, 0);
    assert t.owned[0] == [s.owned[0][1]];
  }

  /** DSOS_EXCL without DSOS_CREATE opens the message queue like no flag at all. */
  lemma ExclAlone(s: Mail)
    requires OpenTimes(s, 1)
    ensures ExclSet(4) && !Creates(s, 0, 7, 4, 0) && Open(s, 0, 7, 4, 0).1 == Returned(1)
  {
    ByIdFinds(s, s.mqList, 7);
    assert !CreateSet(4) && ExclSet(4);
    OpenSucceedsIff(s, 0, 7, 4, 0);
  }

  // ---- the 65th queue

  /** Asking for priority 64 first thing fails, and no message queue is ever created afterwards. */
  lemma PriorityTooHigh(s: Mail, steps: seq<MailStep>)
    requires Boot(s) && Legal(s, [OpenStep(0, 7, 1, MAX_NUM_QUEUES)] + steps)
    ensures Creates(s, 0, 7, 1, MAX_NUM_QUEUES) && Open(s, 0, 7, 1, MAX_NUM_QUEUES).1 == Returned(EMQOPEN)
    ensures var t := Run(s, [OpenStep(0, 7, 1, MAX_NUM_QUEUES)] + steps); t.mqList == [] && t.freeQueues == []
  {
    BootHolds(s);
    assert CreateSet(1);
    CreationLeaksIff(s, 0, 7, 1, MAX_NUM_QUEUES);
    hide Boot, MailInv, Open;
    assert ([OpenStep(0, 7, 1, MAX_NUM_QUEUES)] + steps)[1..] == steps;
    LeakIsFinal(After(s, OpenStep(0, 7, 1, MAX_NUM_QUEUES)), steps);
  }

  // ---- a priority out of range

  /** A message written with priority 9 to a message queue of priority 1 goes where no read looks. */
  lemma OutOfRangeStuck(s: Mail, m: MqBlock)
    requires MailInv(s) && Holding(s, 0, m, [])
    ensures var (t, r) := Write(s, 0, 0, 1, 5, 9);
            && r == Returned(1) && t.nums[m] == 1 && Stuck(t, m) == 1
            && Read(t, 0, 0, MAX_MESSAGE_LENGTH) == (t, Returned(0))
  {
    var t := Write(s, 0, 0, 1, 5, 9).0;
    TotalOfOne(s.nums, m);
    WriteFrame(s, 0, 0, 1, 5, 9);
    WriteOutcome(s, 0, 0, 1, 5, 9);
    hide MailInv, InClass, Write;
    SameByFd(s, t, s.owned[0], 0);
    NothingReadable(t, m);
    NothingToRead(t, m);
  }

  lemma NothingToRead(s: Mail, m: MqBlock)
    requires MailInv(s) && Lookup(s, 0, 0).Some? && s.descs[Lookup(s, 0, 0).value].mq == m && m in s.mqList
    requires s.priorities[m] == 1 && InClass(s, m, 0) == []
    ensures Read(s, 0, 0, MAX_MESSAGE_LENGTH) == (s, Returned(0))
  {
    hide MailInv, InClass, Lookup;
    BigRead(s, 0, 0, MAX_MESSAGE_LENGTH);
  }

  /** From the start: init creates message queue 7 and writes to it with priority 9. */
  lemma StuckFromTheStart(s: Mail) returns (m: MqBlock)
    requires Boot(s)
    ensures var s1 := Open(s, 0, 7, 1, 1).0; var (s2, r) := Write(s1, 0, 0, 1, 5, 9);
            r == Returned(1) && s2.nums[m] == 1 && Stuck(s2, m) == 1
            && Read(s2, 0, 0, MAX_MESSAGE_LENGTH) == (s2, Returned(0))
  {
    BootCanOpen(s);
    hide Boot, Open, Write, Read, MailInv, Lookup, InClass, Stuck, Creates;
    m := CreateFirst(s);
    OutOfRangeStuck(Open(s, 0, 7, 1, 1).0, m);
  }

  // ---- a full message queue

  /** n writes of the same five characters. */
  function Writes(s: Mail, n: nat): Mail {
    if n == 0 then s else Write(Writes(s, n - 1), 0, 0, 1, 5, 0).0
  }

  lemma {:induction false} WritesHold(s: Mail, m: MqBlock, n: nat)
    requires MailInv(s) && Holding(s, 0, m, []) && n <= MAX_NUM_MESSAGES_PER_MQ
    ensures MailInv(Writes(s, n)) && Holding(Writes(s, n), 0, m, seq(n, _ => Message(1, 5)))
  {
    hide MailInv, Holding, Write;
    if n == 0 {
      assert seq(0, _ => Message(1, 5)) == [];
    } else {
      WritesHold(s, m, n - 1);
      WriteNext(Writes(s, n - 1), m, seq(n - 1, _ => Message(1, 5)));
      assert seq(n - 1, _ => Message(1, 5)) + [Message(1, 5)] == seq(n, _ => Message(1, 5));
    }
  }

  lemma WriteToFull(s: Mail, m: MqBlock, messages: seq<Message>)
    requires MailInv(s) && Holding(s, 0, m, messages) && |messages| == MAX_NUM_MESSAGES_PER_MQ
    ensures Write(s, 0, 0, 1, 5, 0) == (s, Returned(0))
  {
    hide MailInv, InClass;
  }

  /** The 128th write to class 0 succeeds and the 129th does not, and both return 0. */
  lemma FullLooksLikeSuccess(s: Mail)
    requires Boot(s)
    ensures var s1 := Open(s, 0, 7, 1, 1).0;
            var (last, r) := Write(Writes(s1, 127), 0, 0, 1, 5, 0);
            r == Returned(0) && last != Writes(s1, 127) && Write(last, 0, 0, 1, 5, 0) == (last, Returned(0))
  {
    BootCanOpen(s);
    hide Boot, Open, Write, MailInv, Holding, Creates;
    var m := CreateFirst(s);
    var s1 := Open(s, 0, 7, 1, 1).0;
    WritesHold(s1, m, 127);
    WriteNext(Writes(s1, 127), m, seq(127, _ => Message(1, 5)));
    HoldingMore(Writes(s1, 127), Write(Writes(s1, 127), 0, 0, 1, 5, 0).0, m, seq(127, _ => Message(1, 5)));
    WriteToFull(Write(Writes(s1, 127), 0, 0, 1, 5, 0).0, m, seq(127, _ => Message(1, 5)) + [Message(1, 5)]);
  }

  lemma HoldingMore(s: Mail, t: Mail, m: MqBlock, messages: seq<Message>)
    requires Holding(s, 0, m, messages) && Holding(t, 0, m, messages + [Message(1, 5)])
    ensures s != t
  {
    hide Lookup, InClass;
  }
}
