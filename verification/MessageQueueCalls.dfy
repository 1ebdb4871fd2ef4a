/** What each message queue call answers and changes, told by its arguments and the state before; and what writes and
    reads do together: the more urgent of two messages is read first, whichever was written first. */
module MessageQueueCalls {
  import opened Bags
  import opened Timers
  import opened Processes
  import opened MessageQueues
  import opened MessageQueueLaws
  import opened MessageQueueSteps
  import opened MessageQueueReads
  import opened MessageQueueRuns
  import opened MessageQueueOpening

  // ---- what an fd means

  /** The first of these descriptors with this fd. */
  ghost predicate FirstWith(s: Mail, ds: seq<Block>, fd: int, i: int) {
    0 <= i < |ds| && s.descs[ds[i]].fd == fd && forall j :: 0 <= j < i ==> s.descs[ds[j]].fd != fd
  }

  lemma {:induction false} ByFdIsFirst(s: Mail, ds: seq<Block>, fd: int) returns (i: nat)
    ensures if ByFd(s, ds, fd).Some? then FirstWith(s, ds, fd, i) && ByFd(s, ds, fd).value == ds[i]
            else forall j :: 0 <= j < |ds| ==> s.descs[ds[j]].fd != fd
  {
    i := 0;
    if ds != [] && s.descs[ds[0]].fd != fd {
      i := ByFdIsFirst(s, ds[1..], fd);
      i := i + 1;
      assert forall j :: 0 < j < |ds| ==> ds[j] == ds[1..][j - 1];
    }
  }

  /** A call with this fd means the first of the process's descriptors that has it, if it is one of 0..16, and none
      otherwise. */
  lemma LookupMeansFirst(s: Mail, p: Block, fd: int)
    ensures Lookup(s, p, fd).Some? <==> 0 <= fd <= 16 && exists i :: FirstWith(s, s.owned[p], fd, i)
    ensures forall i :: 0 <= fd <= 16 && FirstWith(s, s.owned[p], fd, i) ==> Lookup(s, p, fd) == Some(s.owned[p][i])
  {
    var i := ByFdIsFirst(s, s.owned[p], fd);
  }

  // ---- what is written and what is read

  /** A write takes this text and length. */
  predicate Fitting(text: int, length: int) {
    text != 0 && 0 <= length <= MAX_MESSAGE_LENGTH
  }

  /** Only a class that reads look at holds messages, these ones. */
  ghost predicate OnlyIn(s: Mail, m: MqBlock, a: int, first: seq<Message>, b: int, second: seq<Message>) {
    forall k :: 0 <= k <= s.priorities[m] ==>
      InClass(s, m, k) == if k == a then first else if k == b then second else []
  }

  lemma WriteIsSeen(s: Mail, p: Block, fd: int, x: Message, priority: int)
    requires MailInv(s) && Lookup(s, p, fd).Some? && Fitting(x.text, x.length)
    requires s.nums[Named(s, p, fd)] < MAX_NUM_MESSAGES_PER_MQ && s.freeMsgs != []
    requires 0 <= priority < s.priorities[Named(s, p, fd)]
    ensures var (t, r) := Write(s, p, fd, x.text, x.length, priority); var m := Named(s, p, fd);
            && r == Returned(priority) && MailInv(t) && Stored(s, t, m, priority, x)
            && m in s.mqList && forall q: Block, f :: Lookup(t, q, f) == Lookup(s, q, f)
  {
    hide MailInv, Write, Stored;
    WriteBounds(s, p, fd);
    LookupLinked(s, p, fd);
    WriteOutcome(s, p, fd, x.text, x.length, priority);
    var t := Write(s, p, fd, x.text, x.length, priority).0;
    StoredNames(s, t, Named(s, p, fd), priority, x);
  }

  lemma StoredNames(s: Mail, t: Mail, m: MqBlock, rank: int, x: Message)
    requires Stored(s, t, m, rank, x)
    ensures forall q: Block, f :: Lookup(t, q, f) == Lookup(s, q, f)
    ensures t.descs == s.descs
  {
    hide InClass;
    forall q: Block, f: int
      ensures Lookup(t, q, f) == Lookup(s, q, f)
    {
      SameByFd(s, t, s.owned[q], f);
    }
  }

  /** Of two messages written with valid priorities to an empty message queue, the one with the lower number is read
      first, in whichever order they were written, and by whichever process; the other comes next. */
  lemma MostUrgentFirst(s: Mail, p: Block, fd: int, x: Message, a: int, y: Message, b: int, q: Block, gd: int)
    requires MailInv(s) && Lookup(s, p, fd).Some? && Lookup(s, q, gd).Some? && Named(s, q, gd) == Named(s, p, fd)
    requires Fitting(x.text, x.length) && Fitting(y.text, y.length)
    requires s.nums[Named(s, p, fd)] == 0 && |s.freeMsgs| >= 2
    requires 0 <= a < s.priorities[Named(s, p, fd)] && 0 <= b < s.priorities[Named(s, p, fd)] && a != b
    ensures var (t1, r1) := Write(s, p, fd, x.text, x.length, a); var (t2, r2) := Write(t1, p, fd, y.text, y.length, b);
            var (t3, r3) := Read(t2, q, gd, MAX_MESSAGE_LENGTH); var (t4, r4) := Read(t3, q, gd, MAX_MESSAGE_LENGTH);
            && r1 == Returned(a) && r2 == Returned(b)
            && r3 == (if a < b then Received(x.length, x, a) else Received(y.length, y, b))
            && r4 == (if a < b then Received(y.length, y, b) else Received(x.length, x, a))
  {
    hide MailInv, Write, Read, Lookup, Stored, OnlyIn;
    var m := Named(s, p, fd);
    LookupLinked(s, p, fd);
    NothingQueued(s, m);
    WriteIsSeen(s, p, fd, x, a);
    var t1 := Write(s, p, fd, x.text, x.length, a).0;
    StoredIn(s, t1, m, a, x);
    WriteIsSeen(t1, p, fd, y, b);
    var t2 := Write(t1, p, fd, y.text, y.length, b).0;
    BothStored(s, t1, t2, m, a, x, b, y);
    if a < b {
      ReadInTurn(t2, q, gd, m, a, x, b, y);
    } else {
      ReadInTurn(t2, q, gd, m, b, y, a, x);
    }
  }

  lemma StoredIn(s: Mail, t: Mail, m: MqBlock, a: int, x: Message)
    requires Stored(s, t, m, a, x)
    ensures t.descs == s.descs && t.priorities == s.priorities && t.mqList == s.mqList
    ensures t.nums[m] == s.nums[m] + 1 && |t.freeMsgs| == |s.freeMsgs| - 1
  {
    hide InClass;
  }

  lemma BothStored(s: Mail, t: Mail, u: Mail, m: MqBlock, a: int, x: Message, b: int, y: Message)
    requires Stored(s, t, m, a, x) && Stored(t, u, m, b, y) && a != b && m in s.mqList
    requires forall k :: 0 <= k <= s.priorities[m] ==> InClass(s, m, k) == []
    ensures u.descs == s.descs && u.priorities == s.priorities
    ensures OnlyIn(u, m, a, [x], b, [y]) && OnlyIn(u, m, b, [y], a, [x])
  {
    hide InClass;
  }

  /** Two reads of a message queue that holds two messages in different classes. */
  lemma ReadInTurn(s: Mail, q: Block, gd: int, m: MqBlock, a: int, x: Message, b: int, y: Message)
    requires MailInv(s) && Lookup(s, q, gd).Some? && Named(s, q, gd) == m && OnlyIn(s, m, a, [x], b, [y])
    requires 0 <= a < b < s.priorities[m]
    ensures var (t, r) := Read(s, q, gd, MAX_MESSAGE_LENGTH);
            r == Received(x.length, x, a) && Read(t, q, gd, MAX_MESSAGE_LENGTH).1 == Received(y.length, y, b)
  {
    hide MailInv, Read, InClass, Scanned;
    assert FirstReadable(s, m, a);
    ReadsFirst(s, q, gd, a);
    var t := Read(s, q, gd, MAX_MESSAGE_LENGTH).0;
    assert FirstReadable(t, m, b);
    ReadsFirst(t, q, gd, b);
  }

  /** A read with a buffer of 32 takes the oldest message of the first class that has one, and every other class of the
      message queue is as before. */
  lemma ReadsFirst(s: Mail, q: Block, gd: int, a: int)
    requires MailInv(s) && Lookup(s, q, gd).Some? && FirstReadable(s, Named(s, q, gd), a)
    ensures var m := Named(s, q, gd); var (t, r) := Read(s, q, gd, MAX_MESSAGE_LENGTH);
            && MailInv(t) && r == Received(InClass(s, m, a)[0].length, InClass(s, m, a)[0], a)
            && InClass(t, m, a) == InClass(s, m, a)[1..]
            && (forall k :: 0 <= k <= s.priorities[m] && k != a ==> InClass(t, m, k) == InClass(s, m, k))
            && t.priorities == s.priorities && Lookup(t, q, gd) == Lookup(s, q, gd) && Named(t, q, gd) == m
  {
    hide MailInv, Read, Passed, HeadTaken;
    var m := Named(s, q, gd);
    ReadKeeps(s, q, gd, MAX_MESSAGE_LENGTH);
    QueuedFit(s, m, a);
    ReadIsFaithfulIff(s, q, gd, MAX_MESSAGE_LENGTH, a);
    ReadScans(s, q, gd, MAX_MESSAGE_LENGTH);
    var t := Read(s, q, gd, MAX_MESSAGE_LENGTH).0;
    SameByFd(s, t, s.owned[q], gd);
    forall k | 0 <= k <= s.priorities[m] && k != a
      ensures InClass(t, m, k) == InClass(s, m, k)
    {
      GetElsewhere(s, m, a, k);
    }
  }

  lemma GetElsewhere(s: Mail, m: MqBlock, a: int, k: int)
    requires MailInv(s) && m in s.mqList && 0 <= a <= s.priorities[m] && 0 <= k <= s.priorities[m] && k != a
    requires s.msgsOf[QueueAt(s, m, a)] != []
    ensures InClass(Get(s, m, QueueAt(s, m, a)), m, k) == InClass(s, m, k)
  {
    AtClass(s, m, a);
    AtClass(s, m, k);
    SameQueueAt(s, Get(s, m, QueueAt(s, m, a)), m, k);
  }

  // ---- read, close

  /** A read through an fd that names nothing fails and changes nothing; any other is a scan of the classes, which can
      change nothing but the messages and their counts, and gives a message block back exactly when it returns a
      message. */
  lemma ReadOutcome(s: Mail, p: Block, fd: int, bufSize: int)
    requires MailInv(s)
    ensures var (t, r) := Read(s, p, fd, bufSize);
            if Lookup(s, p, fd).None? then t == s && r == Returned(EMQREAD)
            else
              && Scanned(s, Named(s, p, fd), 0, bufSize, t, r) && MailInv(t)
              && |t.freeMsgs| == |s.freeMsgs| + (if r.Received? then 1 else 0)
              && t == s.(msgsOf := t.msgsOf, nums := t.nums, freeMsgs := t.freeMsgs, taken := t.taken, lost := t.lost)
  {
    if Lookup(s, p, fd).Some? {
      hide MailInv, Scanned, Lookup;
      var m := Named(s, p, fd);
      var (t, r) := Read(s, p, fd, bufSize);
      ReadScans(s, p, fd, bufSize);
      ReadKeeps(s, p, fd, bufSize);
      ReadFromFrame(s, m, 0, bufSize);
      ScanCounts(s, m, bufSize, t, r);
    }
  }

  lemma ScanCounts(s: Mail, m: MqBlock, bufSize: int, t: Mail, r: Reply)
    requires MailInv(s) && MailInv(t) && m in s.mqList && Scanned(s, m, 0, bufSize, t, r)
    ensures |t.freeMsgs| == |s.freeMsgs| + (if r.Received? then 1 else 0)
  {
    MqsApart(s);
    TotalUpdate(s.nums, s.mqList, m, t.nums[m]);
  }

  /** A close through an fd that names nothing fails and changes nothing; any other removes the descriptor it names from
      the lists of the process and of the message queue, gives it back, and counts one descriptor less. */
  lemma CloseOutcome(s: Mail, p: Block, fd: int)
    requires MailInv(s)
    ensures var (t, r) := Close(s, p, fd);
            if Lookup(s, p, fd).None? then t == s && r == Returned(EMQCLOSE)
            else
              var d, m := Lookup(s, p, fd).value, Named(s, p, fd);
              && r == Returned(0)
              && t == s.(owned := s.owned[p := t.owned[p]], descsOf := s.descsOf[m := t.descsOf[m]],
                         freeDescs := [d] + s.freeDescs, lastFd := s.lastFd[p := |t.owned[p]|])
              && WithoutOne<Block>(s.owned[p], t.owned[p], d) && WithoutOne<Block>(s.descsOf[m], t.descsOf[m], d)
  {
    hide MailInv, Remove, Lookup, WithoutOne;
    if Lookup(s, p, fd).Some? {
      var d, m := Lookup(s, p, fd).value, Named(s, p, fd);
      LookupLinked(s, p, fd);
      OwnedListed(s, p);
      RemovesOne<Block>(s.owned[p], d);
      RemovesOne<Block>(s.descsOf[m], d);
      OneFewer(s.owned[p], Remove(s.owned[p], d), d);
    }
  }

  lemma OneFewer(l: seq<Block>, m: seq<Block>, x: Block)
    requires WithoutOne<Block>(l, m, x)
    ensures |m| == |l| - 1
  {
  }

  // ---- open

  /** The process has one descriptor more, its last, for m; its fd is the number of those it had. */
  ghost predicate Opened(s: Mail, t: Mail, p: Block, d: Block, m: MqBlock) {
    && [d] + t.freeDescs == s.freeDescs && t.owned == s.owned[p := s.owned[p] + [d]]
    && t.descs == s.descs[d := MqDesc(p, m, |s.owned[p]|)] && t.lastFd == s.lastFd[p := |s.owned[p]| + 1]
  }

  /** m, which was there, has one descriptor more, and nothing else is changed but what Opened says. */
  ghost predicate Reached(s: Mail, t: Mail, d: Block, m: MqBlock) {
    && m in s.mqList
    && t == s.(freeDescs := t.freeDescs, owned := t.owned, lastFd := t.lastFd, descs := t.descs,
               descsOf := s.descsOf[m := s.descsOf[m] + [d]])
  }

  /** m is new, and alone in the list, as creating requires; it has an empty queue for each of its classes. */
  ghost predicate Made(s: Mail, t: Mail, d: Block, m: MqBlock, priority: int) {
    && t.mqList == [m] && [m] + t.freeMqs == s.freeMqs && t.freeMsgs == s.freeMsgs
    && t.priorities == s.priorities[m := priority] && t.nums == s.nums[m := 0] && t.descsOf == s.descsOf[m := [d]]
    && |t.freeQueues| == |s.freeQueues| - priority - 1
    && forall k :: 0 <= k <= priority ==> InClass(t, m, k) == []
  }

  /** What an open that can does: a descriptor for the message queue with this id, made for it unless there was one. */
  lemma OpenOutcome(s: Mail, p: Block, id: int, flags: int, priority: int)
    requires MailInv(s) && (Creates(s, p, id, flags, priority) ==> s.mqList == []) && CanOpen(s, p, id, flags, priority)
    ensures var (t, r) := Open(s, p, id, flags, priority); var d := s.freeDescs[0]; var m := t.descs[d].mq;
            && r == Returned(|s.owned[p]|) && MailInv(t) && t.ids[m] == id && Opened(s, t, p, d, m)
            && if exists n :: n in s.mqList && s.ids[n] == id then Reached(s, t, d, m) else Made(s, t, d, m, priority)
  {
    hide MailInv, Creates, CanOpen, Open, InClass, WithNewMq;
    OpenSucceedsIff(s, p, id, flags, priority);
    OpenAttaches(s, p, id, flags, priority);
    OwnedListed(s, p);
    ByIdFinds(s, s.mqList, id);
    OpenKeeps(s, p, id, flags, priority);
    OpenCreates(s, p, id, flags, priority);
    if Creates(s, p, id, flags, priority) {
      CreatedIs(s, p, id, priority);
      NothingQueued(Open(s, p, id, flags, priority).0, s.freeMqs[0]);
      AttachMakes(s, p, id, priority);
    }
  }

  lemma AttachMakes(s: Mail, p: Block, id: int, priority: nat)
    requires MailInv(s) && s.mqList == [] && s.freeMqs != [] && priority + 1 <= |s.freeQueues| && s.freeDescs != []
    requires var t, m := Attach(WithNewMq(s, id, priority), p, s.freeMqs[0]).0, s.freeMqs[0];
             forall k :: 0 <= k <= t.priorities[m] ==> InClass(t, m, k) == []
    requires WithNewMq(s, id, priority).freeDescs == s.freeDescs
    ensures Made(s, Attach(WithNewMq(s, id, priority), p, s.freeMqs[0]).0, s.freeDescs[0], s.freeMqs[0], priority)
  {
    hide MailInv, InClass, WithNewMq;
    CreatedIs(s, p, id, priority);
    assert [] + [s.freeDescs[0]] == [s.freeDescs[0]];
  }

  lemma OpenCreates(s: Mail, p: Block, id: int, flags: int, priority: int)
    requires MailInv(s) && CanOpen(s, p, id, flags, priority)
    ensures Creates(s, p, id, flags, priority) <==> !exists n :: n in s.mqList && s.ids[n] == id
    ensures Creates(s, p, id, flags, priority) ==> s.freeMqs != [] && 0 <= priority && priority + 1 <= |s.freeQueues|
  {
    ByIdFinds(s, s.mqList, id);
    OwnedListed(s, p);
    QueuesBounded(s);
    hide MailInv;
  }

  lemma CreatedIs(s: Mail, p: Block, id: int, priority: nat)
    requires MailInv(s) && s.mqList == [] && s.freeMqs != [] && priority + 1 <= |s.freeQueues| && s.freeDescs != []
    ensures var m, c := s.freeMqs[0], WithNewMq(s, id, priority);
            && c.mqList == [m] && c.priorities == s.priorities[m := priority] && c.nums == s.nums[m := 0]
            && c.descsOf == s.descsOf && s.descsOf[m] == [] && c.ids[m] == id && c.freeMqs == s.freeMqs[1..]
            && c.freeMsgs == s.freeMsgs
            && |c.freeQueues| == |s.freeQueues| - priority - 1
  {
    hide MailInv, AddQueues, Queued, Ranks;
    NewMqBuilds(s, id, priority);
    WithNewMqOnly(s, id, priority);
    hide Restocked;
    WithNewMqFrame(s, id, priority);
  }

  /** The open makes a message queue and runs out of queues for it: priority 64 is accepted although there are only 64
      queues for its 65 classes. */
  ghost predicate RunsOut(s: Mail, p: Block, id: int, flags: int, priority: int) {
    && |s.owned[p]| < MAX_NUM_MQDESCRIPTORS_PER_PROCESS && id >= 0
    && CreateSet(flags) && (forall m :: m in s.mqList ==> s.ids[m] != id)
    && |s.mqList| < MAX_NUM_MQS && s.freeMqs != [] && |s.freeQueues| <= priority <= MAX_NUM_QUEUES
  }

  /** Any other open fails: it changes nothing, or, when it runs out of queues, takes them all and a message queue
      block, which no list has then. */
  lemma OpenFailure(s: Mail, p: Block, id: int, flags: int, priority: int)
    requires MailInv(s) && (Creates(s, p, id, flags, priority) ==> s.mqList == [])
    requires !CanOpen(s, p, id, flags, priority)
    ensures var (t, r) := Open(s, p, id, flags, priority);
            && r == Returned(EMQOPEN)
            && if RunsOut(s, p, id, flags, priority)
               then t.mqList == [] && t.freeQueues == [] && t.unlisted == s.unlisted + s.freeMqs[..1]
                    && t.freeMqs == s.freeMqs[1..] && t.owned == s.owned && t.descs == s.descs && t.lastFd == s.lastFd
                    && t.freeDescs == s.freeDescs
               else t == s
  {
    hide MailInv, AddQueues, Open;
    OpenSucceedsIff(s, p, id, flags, priority);
    CreatesOrNot(s, p, id, flags, priority);
    if RunsOut(s, p, id, flags, priority) {
      CreationLeaksIff(s, p, id, flags, priority);
      LeakFrame(s, p, id, flags, priority);
    }
  }

  lemma CreatesOrNot(s: Mail, p: Block, id: int, flags: int, priority: int)
    requires MailInv(s) && (Creates(s, p, id, flags, priority) ==> s.mqList == [])
    requires !CanOpen(s, p, id, flags, priority)
    ensures RunsOut(s, p, id, flags, priority) <==> Creates(s, p, id, flags, priority)
    ensures RunsOut(s, p, id, flags, priority) || Open(s, p, id, flags, priority).0 == s
  {
    ByIdFinds(s, s.mqList, id);
    OwnedListed(s, p);
    WhenEmpty(s);
    hide MailInv, AddQueues;
  }

  lemma LeakFrame(s: Mail, p: Block, id: int, flags: int, priority: int)
    requires MailInv(s) && Creates(s, p, id, flags, priority) && s.mqList == [] && priority + 1 > |s.freeQueues|
    ensures var t := Open(s, p, id, flags, priority).0;
            && t.freeMqs == s.freeMqs[1..] && t.owned == s.owned && t.descs == s.descs && t.lastFd == s.lastFd
            && t.freeDescs == s.freeDescs
  {
    hide MailInv, AddQueues;
    NewMqBuilds(s, id, priority);
  }

  /** Without message queues in the list all descriptors are free. */
  lemma WhenEmpty(s: Mail)
    requires MailInv(s)
    ensures s.mqList == [] ==> s.freeDescs != []
  {
    if s.mqList == [] {
      assert forall m: MqBlock :: s.descsOf[m] == [];
      AllEmptyBag<Block>(s.freeDescs, s.descsOf);
      ExactlySize(DescBag(s), MAX_NUM_PROCESSES);
    }
  }

  // ---- unlink

  /** Unlinking a message queue that counts no messages and has no descriptors takes it out of the list, and gives its
      block and its queues back; nothing else changes. Any other unlink fails and changes nothing. */
  lemma UnlinkOutcome(s: Mail, id: int)
    requires MailInv(s)
    ensures var (t, r) := Unlink(s, id);
            && (forall m :: m in s.mqList && s.ids[m] == id && s.nums[m] == 0 && s.descsOf[m] == [] ==>
                  && r == Returned(0) && WithoutOne<MqBlock>(s.mqList, t.mqList, m)
                  && t == s.(mqList := t.mqList, freeMqs := [m] + s.freeMqs, queuesOf := s.queuesOf[m := []],
                             freeQueues := t.freeQueues)
                  && multiset(t.freeQueues) == multiset(s.freeQueues) + multiset(s.queuesOf[m]))
            && ((forall m :: m in s.mqList && s.ids[m] == id ==> s.nums[m] != 0 || s.descsOf[m] != []) ==>
                  t == s && r == Returned(EMQUNLINK))
  {
    ByIdFinds(s, s.mqList, id);
    var found := ById(s, s.mqList, id);
    if found.Some? {
      var m := found.value;
      assert forall n :: n in s.mqList && s.ids[n] == id ==> n == m;
      RemovesOne<MqBlock>(s.mqList, m);
      if s.nums[m] == 0 && s.descsOf[m] == [] {
        QueueCount(s, m);
        QueuedNotNegative(s, m);
        hide MailInv;
        DropQueuesRestock(Delist(s, m), m, 0);
        DropQueuesFrame(Delist(s, m), m, 0);
        RestockedBag(s.queuesOf[m], s.freeQueues);
      }
    }
  }

  lemma {:induction false} RestockedBag(qs: seq<QueueBlock>, free: seq<QueueBlock>)
    ensures multiset(Restocked(qs, free)) == multiset(free) + multiset(qs)
  {
    if qs != [] {
      RestockedBag(qs[1..], [qs[0]] + free);
      assert qs == [qs[0]] + qs[1..];
    }
  }
}
