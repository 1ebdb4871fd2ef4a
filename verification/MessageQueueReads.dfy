/** Which message a read takes, what it leaves behind, and when what the interface promises about it is true. */
module MessageQueueReads {
  import opened Bags
  import opened Timers
  import opened Processes
  import opened MessageQueues
  import opened MessageQueueLaws
  import opened MessageQueueSteps

  /** The queue of class `rank` of m. */
  function QueueAt(s: Mail, m: MqBlock, rank: int): QueueBlock {
    var q := ByClass(s, s.queuesOf[m], rank);
    if q.Some? then q.value else 0
  }

  /** The messages waiting in class `rank` of m, oldest first. */
  function InClass(s: Mail, m: MqBlock, rank: int): seq<Message> {
    Contents(s.messages, s.msgsOf[QueueAt(s, m, rank)])
  }

  /** The oldest message of the class is there and fits the buffer. */
  predicate Fits(s: Mail, m: MqBlock, rank: int, bufSize: int) {
    InClass(s, m, rank) != [] && InClass(s, m, rank)[0].length <= bufSize
  }

  function Rest<T>(l: seq<T>): seq<T> {
    if l == [] then l else l[1..]
  }

  /** The scan of the classes from i on by a read that stopped with this reply: it stopped at the first class
      whose oldest message fits and returned that message; it took one message from every non-empty class
      it passed; and it touched nothing else. */
  ghost predicate Scanned(s: Mail, m: MqBlock, i: nat, bufSize: int, t: Mail, r: Reply) {
    && (r.Received? ==>
          && i <= r.rank < s.priorities[m] && Fits(s, m, r.rank, bufSize)
          && r.message == InClass(s, m, r.rank)[0] && r.ret == r.message.length)
    && (!r.Received? ==> r == Returned(0))
    && (forall rank :: i <= rank < Stop(s, m, r) ==> !Fits(s, m, rank, bufSize))
    && Took(s, m, i, t, r)
    && t.nums == s.nums[m := s.nums[m] - if r.Received? then 1 else 0]
    && t.lost == s.lost[m := t.lost[m]] && s.lost[m] <= t.lost[m]
    && t.queuesOf == s.queuesOf && t.classes == s.classes && t.messages == s.messages && t.priorities == s.priorities
    && t.written == s.written && t.mqList == s.mqList && t.descs == s.descs && t.owned == s.owned
  }

  /** Every queue passed has lost its head, if it had one, and that is logged. */
  ghost predicate Took(s: Mail, m: MqBlock, i: nat, t: Mail, r: Reply) {
    && (forall q: QueueBlock :: t.msgsOf[q] == if Passed(s, m, i, r, q) then Rest(s.msgsOf[q]) else s.msgsOf[q])
    && (forall q: QueueBlock :: t.taken[q] == s.taken[q] + if Passed(s, m, i, r, q) then HeadTaken(s, r, q) else [])
  }

  function Stop(s: Mail, m: MqBlock, r: Reply): int {
    if r.Received? then r.rank else s.priorities[m]
  }

  /** The read took the head of q, if there was one. */
  predicate Passed(s: Mail, m: MqBlock, i: nat, r: Reply, q: QueueBlock) {
    q in s.queuesOf[m] && (i <= s.classes[q] < Stop(s, m, r) || (r.Received? && s.classes[q] == r.rank))
  }

  /** What the read logs for q: its head, if there is one, delivered if the read stopped there, else dropped. */
  function HeadTaken(s: Mail, r: Reply, q: QueueBlock): seq<Taken> {
    if s.msgsOf[q] == [] then []
    else [Taken(s.messages[s.msgsOf[q][0]], r.Received? && s.classes[q] == r.rank)]
  }

  lemma SameQueueAt(s: Mail, t: Mail, m: MqBlock, rank: int)
    requires t.queuesOf[m] == s.queuesOf[m] && t.classes == s.classes
    ensures QueueAt(s, m, rank) == QueueAt(t, m, rank)
  {
    SameByClass(s, t, s.queuesOf[m], rank);
  }

  lemma {:induction false} SameByClass(s: Mail, t: Mail, qs: seq<QueueBlock>, rank: int)
    requires t.classes == s.classes
    ensures ByClass(s, qs, rank) == ByClass(t, qs, rank)
  {
    if qs != [] {
      SameByClass(s, t, qs[1..], rank);
    }
  }

  lemma AtClass(s: Mail, m: MqBlock, rank: int)
    requires MailInv(s) && m in s.mqList && 0 <= rank <= s.priorities[m]
    ensures ByClass(s, s.queuesOf[m], rank) == Some(QueueAt(s, m, rank))
    ensures QueueAt(s, m, rank) in s.queuesOf[m]
    ensures forall q :: q in s.queuesOf[m] ==> (s.classes[q] == rank <==> q == QueueAt(s, m, rank))
  {
    ListedClassFound(s, m, rank);
  }

  /** An empty class, seen from the scan of the classes after it. */
  lemma EmptyScan(s: Mail, m: MqBlock, i: nat, bufSize: int, t: Mail, r: Reply)
    requires MailInv(s) && m in s.mqList && i < s.priorities[m]
    requires s.msgsOf[QueueAt(s, m, i)] == [] && Scanned(s, m, i + 1, bufSize, t, r)
    ensures Scanned(s, m, i, bufSize, t, r)
  {
    hide MailInv, QueueAt, Fits, Took;
    EmptyTook(s, m, i, t, r);
    EmptyUnfit(s, m, i, bufSize);
  }

  lemma EmptyUnfit(s: Mail, m: MqBlock, i: nat, bufSize: int)
    requires s.msgsOf[QueueAt(s, m, i)] == []
    ensures !Fits(s, m, i, bufSize)
  {
  }

  lemma EmptyTook(s: Mail, m: MqBlock, i: nat, t: Mail, r: Reply)
    requires MailInv(s) && m in s.mqList && i < s.priorities[m] && s.msgsOf[QueueAt(s, m, i)] == []
    requires (r.Received? ==> r.rank > i) && Took(s, m, i + 1, t, r)
    ensures Took(s, m, i, t, r)
  {
    hide MailInv, QueueAt, Passed, HeadTaken, Rest;
    forall x: QueueBlock
      ensures t.msgsOf[x] == if Passed(s, m, i, r, x) then Rest(s.msgsOf[x]) else s.msgsOf[x]
      ensures t.taken[x] == s.taken[x] + if Passed(s, m, i, r, x) then HeadTaken(s, r, x) else []
    {
      EmptyLists(s, m, i, t, r, x);
    }
  }

  lemma EmptyLists(s: Mail, m: MqBlock, i: nat, t: Mail, r: Reply, x: QueueBlock)
    requires MailInv(s) && m in s.mqList && i < s.priorities[m] && s.msgsOf[QueueAt(s, m, i)] == []
    requires r.Received? ==> r.rank > i
    requires t.msgsOf[x] == if Passed(s, m, i + 1, r, x) then Rest(s.msgsOf[x]) else s.msgsOf[x]
    requires t.taken[x] == s.taken[x] + if Passed(s, m, i + 1, r, x) then HeadTaken(s, r, x) else []
    ensures t.msgsOf[x] == if Passed(s, m, i, r, x) then Rest(s.msgsOf[x]) else s.msgsOf[x]
    ensures t.taken[x] == s.taken[x] + if Passed(s, m, i, r, x) then HeadTaken(s, r, x) else []
  {
    AtClass(s, m, i);
    hide MailInv, QueueAt;
  }

  /** A class whose oldest message fits. */
  lemma FoundScan(s: Mail, m: MqBlock, i: nat, bufSize: int)
    requires MailInv(s) && m in s.mqList && i < s.priorities[m]
    requires var q := QueueAt(s, m, i); s.msgsOf[q] != [] && bufSize >= s.messages[s.msgsOf[q][0]].length
    ensures var q := QueueAt(s, m, i); var message := s.messages[s.msgsOf[q][0]];
            Scanned(s, m, i, bufSize, Get(s, m, q), Received(message.length, message, i))
  {
    hide MailInv, QueueAt, Took;
    FoundTook(s, m, i);
  }

  lemma FoundTook(s: Mail, m: MqBlock, i: nat)
    requires MailInv(s) && m in s.mqList && i < s.priorities[m] && s.msgsOf[QueueAt(s, m, i)] != []
    ensures var q := QueueAt(s, m, i); var message := s.messages[s.msgsOf[q][0]];
            Took(s, m, i, Get(s, m, q), Received(message.length, message, i))
  {
    hide MailInv, QueueAt;
    AtClass(s, m, i);
  }

  lemma {:induction false} ReadFromScans(s: Mail, m: MqBlock, i: nat, bufSize: int)
    requires MailInv(s) && m in s.mqList
    ensures Scanned(s, m, i, bufSize, ReadFrom(s, m, i, bufSize).0, ReadFrom(s, m, i, bufSize).1)
    decreases s.priorities[m] - i
  {
    hide MailInv;
    var (t, r) := ReadFrom(s, m, i, bufSize);
    if i < s.priorities[m] {
      AtClass(s, m, i);
      var q := QueueAt(s, m, i);
      hide Scanned, Passed;
      if s.msgsOf[q] == [] {
        ReadFromScans(s, m, i + 1, bufSize);
        EmptyScan(s, m, i, bufSize, t, r);
      } else if bufSize >= s.messages[s.msgsOf[q][0]].length {
        FoundScan(s, m, i, bufSize);
      } else {
        DropKeeps(s, m, q);
        var s' := Drop(s, m, q);
        ReadFromScans(s', m, i + 1, bufSize);
        DroppedScan(s, m, i, bufSize, t, r);
      }
    }
  }

  /** Dropping the head of class i does not show in the later classes. */
  lemma DropSeenLater(s: Mail, m: MqBlock, i: nat, bufSize: int, rank: int)
    requires MailInv(s) && m in s.mqList && i < rank <= s.priorities[m] && s.msgsOf[QueueAt(s, m, i)] != []
    ensures var t := Drop(s, m, QueueAt(s, m, i));
            Fits(t, m, rank, bufSize) == Fits(s, m, rank, bufSize) && InClass(t, m, rank) == InClass(s, m, rank)
  {
    AtClass(s, m, i);
    AtClass(s, m, rank);
    SameQueueAt(s, Drop(s, m, QueueAt(s, m, i)), m, rank);
  }

  lemma DroppedLists(s: Mail, m: MqBlock, i: nat, t: Mail, r: Reply, x: QueueBlock)
    requires MailInv(s) && m in s.mqList && i < s.priorities[m] && s.msgsOf[QueueAt(s, m, i)] != []
    requires r.Received? ==> r.rank > i
    requires var s' := Drop(s, m, QueueAt(s, m, i));
             && t.msgsOf[x] == (if Passed(s', m, i + 1, r, x) then Rest(s'.msgsOf[x]) else s'.msgsOf[x])
             && t.taken[x] == s'.taken[x] + if Passed(s', m, i + 1, r, x) then HeadTaken(s', r, x) else []
    ensures t.msgsOf[x] == if Passed(s, m, i, r, x) then Rest(s.msgsOf[x]) else s.msgsOf[x]
    ensures t.taken[x] == s.taken[x] + if Passed(s, m, i, r, x) then HeadTaken(s, r, x) else []
  {
    AtClass(s, m, i);
    hide MailInv, QueueAt;
  }

  /** A scan that drops the head of class i, seen from before and after the drop. */
  lemma DroppedScan(s: Mail, m: MqBlock, i: nat, bufSize: int, t: Mail, r: Reply)
    requires MailInv(s) && m in s.mqList && i < s.priorities[m]
    requires s.msgsOf[QueueAt(s, m, i)] != [] && !Fits(s, m, i, bufSize)
    requires Scanned(Drop(s, m, QueueAt(s, m, i)), m, i + 1, bufSize, t, r)
    ensures Scanned(s, m, i, bufSize, t, r)
  {
    hide MailInv, Fits, InClass, QueueAt, Took;
    forall rank | i < rank <= s.priorities[m]
      ensures Fits(Drop(s, m, QueueAt(s, m, i)), m, rank, bufSize) == Fits(s, m, rank, bufSize)
      ensures InClass(Drop(s, m, QueueAt(s, m, i)), m, rank) == InClass(s, m, rank)
    {
      DropSeenLater(s, m, i, bufSize, rank);
    }
    DroppedTook(s, m, i, t, r);
  }

  lemma DroppedTook(s: Mail, m: MqBlock, i: nat, t: Mail, r: Reply)
    requires MailInv(s) && m in s.mqList && i < s.priorities[m] && s.msgsOf[QueueAt(s, m, i)] != []
    requires (r.Received? ==> r.rank > i) && Took(Drop(s, m, QueueAt(s, m, i)), m, i + 1, t, r)
    ensures Took(s, m, i, t, r)
  {
    hide MailInv, QueueAt, Passed, HeadTaken, Rest;
    forall x: QueueBlock
      ensures t.msgsOf[x] == if Passed(s, m, i, r, x) then Rest(s.msgsOf[x]) else s.msgsOf[x]
      ensures t.taken[x] == s.taken[x] + if Passed(s, m, i, r, x) then HeadTaken(s, r, x) else []
    {
      DroppedLists(s, m, i, t, r, x);
    }
  }

  /** A read through a valid descriptor, whatever the buffer. */
  lemma ReadScans(s: Mail, p: Block, fd: int, bufSize: int)
    requires MailInv(s) && Lookup(s, p, fd).Some?
    ensures var m := s.descs[Lookup(s, p, fd).value].mq; var (t, r) := Read(s, p, fd, bufSize);
            m in s.mqList && Scanned(s, m, 0, bufSize, t, r)
  {
    LookupLinked(s, p, fd);
    var m := s.descs[Lookup(s, p, fd).value].mq;
    if s.nums[m] == 0 {
      NothingQueued(s, m);
      ReadFromEmpty(s, m, 0, bufSize);
    }
    ReadFromScans(s, m, 0, bufSize);
  }

  /** When num_messages is zero, no class holds a message. */
  lemma NothingQueued(s: Mail, m: MqBlock)
    requires MailInv(s) && m in s.mqList && s.nums[m] == 0
    ensures forall rank :: 0 <= rank <= s.priorities[m] ==> InClass(s, m, rank) == []
  {
    QueuedNotNegative(s, m);
    forall rank | 0 <= rank <= s.priorities[m]
      ensures InClass(s, m, rank) == []
    {
      AtClass(s, m, rank);
    }
  }

  lemma {:induction false} ReadFromEmpty(s: Mail, m: MqBlock, i: nat, bufSize: int)
    requires MailInv(s) && m in s.mqList && forall rank :: i <= rank < s.priorities[m] ==> InClass(s, m, rank) == []
    ensures ReadFrom(s, m, i, bufSize) == (s, Returned(0))
    decreases s.priorities[m] - i
  {
    hide MailInv;
    if i < s.priorities[m] {
      AtClass(s, m, i);
      assert InClass(s, m, i) == [];
      ReadFromEmpty(s, m, i + 1, bufSize);
    }
  }

  /** When the first non-empty class has an oldest message that fits, that is all the read touches. */
  lemma {:induction false} ReadFromFirst(s: Mail, m: MqBlock, i: nat, k: nat, bufSize: int)
    requires MailInv(s) && m in s.mqList && i <= k < s.priorities[m]
    requires (forall rank :: i <= rank < k ==> InClass(s, m, rank) == []) && Fits(s, m, k, bufSize)
    ensures s.msgsOf[QueueAt(s, m, k)] != []
    ensures var q := QueueAt(s, m, k);
            ReadFrom(s, m, i, bufSize) == (Get(s, m, q), Received(InClass(s, m, k)[0].length, InClass(s, m, k)[0], k))
    decreases k - i
  {
    hide MailInv;
    AtClass(s, m, i);
    if i < k {
      assert InClass(s, m, i) == [];
      ReadFromFirst(s, m, i + 1, k, bufSize);
    }
  }

  /** The most urgent class a read can see that holds a message. */
  ghost predicate FirstReadable(s: Mail, m: MqBlock, k: int) {
    && 0 <= k < s.priorities[m] && InClass(s, m, k) != []
    && forall rank :: 0 <= rank < k ==> InClass(s, m, rank) == []
  }

  /** "The oldest message with highest priority" is what a read returns exactly when it fits the buffer; the
      queue of its class then loses that message and nothing else changes in the queues. Otherwise that
      message is gone all the same, and still counted. */
  lemma ReadIsFaithfulIff(s: Mail, p: Block, fd: int, bufSize: int, k: int)
    requires MailInv(s) && Lookup(s, p, fd).Some? && FirstReadable(s, s.descs[Lookup(s, p, fd).value].mq, k)
    ensures var m := s.descs[Lookup(s, p, fd).value].mq; var (t, r) := Read(s, p, fd, bufSize);
            var oldest := InClass(s, m, k)[0];
            && (r == Received(oldest.length, oldest, k) <==> bufSize >= oldest.length)
            && (bufSize >= oldest.length ==> s.msgsOf[QueueAt(s, m, k)] != [] && t == Get(s, m, QueueAt(s, m, k)))
            && InClass(t, m, k) == InClass(s, m, k)[1..]
            && (bufSize < oldest.length ==>
                  t.taken[QueueAt(s, m, k)] == s.taken[QueueAt(s, m, k)] + [Taken(oldest, false)])
  {
    hide MailInv, Scanned, QueueAt, ReadFrom, Get;
    var m := s.descs[Lookup(s, p, fd).value].mq;
    ReadScans(s, p, fd, bufSize);
    if s.nums[m] == 0 {
      NothingQueued(s, m);
    }
    var (t, r) := ReadFrom(s, m, 0, bufSize);
    if bufSize >= InClass(s, m, k)[0].length {
      ReadFromFirst(s, m, 0, k, bufSize);
      TookFirst(s, m, k);
    } else {
      ScanPasses(s, m, k, bufSize, t, r);
    }
  }

  /** A scan whose buffer is too small for the oldest message goes on, and that message is gone. */
  lemma ScanPasses(s: Mail, m: MqBlock, k: int, bufSize: int, t: Mail, r: Reply)
    requires MailInv(s) && m in s.mqList && FirstReadable(s, m, k) && bufSize < InClass(s, m, k)[0].length
    requires Scanned(s, m, 0, bufSize, t, r)
    ensures r.Received? ==> r.rank > k
    ensures InClass(t, m, k) == InClass(s, m, k)[1..]
    ensures t.taken[QueueAt(s, m, k)] == s.taken[QueueAt(s, m, k)] + [Taken(InClass(s, m, k)[0], false)]
  {
    hide MailInv, QueueAt;
    AtClass(s, m, k);
    SameQueueAt(s, t, m, k);
    assert Passed(s, m, 0, r, QueueAt(s, m, k));
  }

  lemma TookFirst(s: Mail, m: MqBlock, k: int)
    requires InClass(s, m, k) != []
    ensures s.msgsOf[QueueAt(s, m, k)] != []
    ensures InClass(Get(s, m, QueueAt(s, m, k)), m, k) == InClass(s, m, k)[1..]
  {
    hide QueueAt;
    SameQueueAt(s, Get(s, m, QueueAt(s, m, k)), m, k);
  }

  /** A read that returns no message has left the message queue alone exactly when every class it can see was
      empty: a buffer too small for what is there loses messages. */
  lemma FruitlessReadHarmlessIff(s: Mail, p: Block, fd: int, bufSize: int)
    requires MailInv(s) && Lookup(s, p, fd).Some? && !Read(s, p, fd, bufSize).1.Received?
    ensures var m := s.descs[Lookup(s, p, fd).value].mq;
            Read(s, p, fd, bufSize).0 == s <==> forall rank :: 0 <= rank < s.priorities[m] ==> InClass(s, m, rank) == []
  {
    var m := s.descs[Lookup(s, p, fd).value].mq;
    var (t, r) := Read(s, p, fd, bufSize);
    ReadScans(s, p, fd, bufSize);
    hide MailInv;
    if forall rank :: 0 <= rank < s.priorities[m] ==> InClass(s, m, rank) == [] {
      ReadFromEmpty(s, m, 0, bufSize);
    } else {
      var rank :| 0 <= rank < s.priorities[m] && InClass(s, m, rank) != [];
      var q := QueueAt(s, m, rank);
      AtClass(s, m, rank);
      assert Passed(s, m, 0, r, q);
      assert |t.msgsOf[q]| < |s.msgsOf[q]|;
    }
  }

  // ---- buffers of MAX_MESSAGE_LENGTH

  /** Every queued message fits such a buffer, mqWrite having bounded its length. */
  lemma QueuedFit(s: Mail, m: MqBlock, rank: int)
    requires MailInv(s) && InClass(s, m, rank) != []
    ensures 0 <= InClass(s, m, rank)[0].length <= MAX_MESSAGE_LENGTH
  {
    var q := QueueAt(s, m, rank);
    var n := |Outcomes(s.taken[q])|;
    assert s.written[q][n] == InClass(s, m, rank)[0];
  }

  /** A read with such a buffer takes the oldest message of the most urgent non-empty class, and drops nothing. */
  lemma BigRead(s: Mail, p: Block, fd: int, bufSize: int)
    requires MailInv(s) && Lookup(s, p, fd).Some? && bufSize >= MAX_MESSAGE_LENGTH
    ensures var m := s.descs[Lookup(s, p, fd).value].mq; var (t, r) := Read(s, p, fd, bufSize);
            if exists k :: FirstReadable(s, m, k)
            then r.Received? && FirstReadable(s, m, r.rank) && r.message == InClass(s, m, r.rank)[0]
                 && s.msgsOf[QueueAt(s, m, r.rank)] != [] && t == Get(s, m, QueueAt(s, m, r.rank))
            else t == s && r == Returned(0)
  {
    var m := s.descs[Lookup(s, p, fd).value].mq;
    LookupLinked(s, p, fd);
    if k :| FirstReadable(s, m, k) {
      QueuedFit(s, m, k);
      ReadIsFaithfulIff(s, p, fd, bufSize, k);
    } else {
      NoneReadable(s, m, s.priorities[m]);
      ReadFromEmpty(s, m, 0, bufSize);
    }
  }

  lemma {:induction false} NoneReadable(s: Mail, m: MqBlock, n: int)
    requires n <= s.priorities[m] && !exists k :: FirstReadable(s, m, k)
    ensures forall rank :: 0 <= rank < n ==> InClass(s, m, rank) == []
    decreases n
  {
    if n > 0 {
      NoneReadable(s, m, n - 1);
      assert !FirstReadable(s, m, n - 1);
    }
  }

  // ---- what can never be read

  /** The messages of m that no read will return: those dropped, and those of the last class. */
  function Stuck(s: Mail, m: MqBlock): int {
    |s.lost[m]| + |s.msgsOf[QueueAt(s, m, s.priorities[m])]|
  }

  /** num_messages is at least that, and more exactly when some class can be read. */
  lemma StuckIsCounted(s: Mail, m: MqBlock)
    requires MailInv(s) && m in s.mqList
    ensures s.nums[m] >= Stuck(s, m)
    ensures s.nums[m] == Stuck(s, m) <==> forall k :: !FirstReadable(s, m, k)
  {
    hide MailInv, QueueAt, FirstReadable;
    var others := OtherQueues(s, m);
    NumsCount(s, m);
    OthersReadable(s, m, others);
    TotalZero(Lengths(s.msgsOf), others);
  }

  lemma NumsCount(s: Mail, m: MqBlock)
    requires MailInv(s) && m in s.mqList
    ensures s.priorities[m] >= 0 && s.nums[m] == Queued(s, m) + |s.lost[m]|
  {
    ListedClassFound(s, m, 0);
  }

  /** The queues a read can see. */
  lemma OtherQueues(s: Mail, m: MqBlock) returns (others: seq<QueueBlock>)
    requires MailInv(s) && m in s.mqList
    ensures forall q :: q in others <==> q in s.queuesOf[m] && q != QueueAt(s, m, s.priorities[m])
    ensures Queued(s, m) == Total(Lengths(s.msgsOf), others) + |s.msgsOf[QueueAt(s, m, s.priorities[m])]|
  {
    hide MailInv, QueueAt;
    var qs, last := s.queuesOf[m], QueueAt(s, m, s.priorities[m]);
    NumsCount(s, m);
    AtClass(s, m, s.priorities[m]);
    QueuesOnce(s, m);
    var i :| 0 <= i < |qs| && qs[i] == last;
    TotalWithout(Lengths(s.msgsOf), qs, i);
    others := qs[..i] + qs[i + 1..];
  }

  lemma QueuesOnce(s: Mail, m: MqBlock)
    requires MailInv(s)
    ensures NoDuplicates(s.queuesOf[m])
  {
    QueuesApart(s, m);
  }

  lemma OthersReadable(s: Mail, m: MqBlock, others: seq<QueueBlock>)
    requires MailInv(s) && m in s.mqList && s.priorities[m] >= 0
    requires forall q :: q in others <==> q in s.queuesOf[m] && q != QueueAt(s, m, s.priorities[m])
    ensures Total(Lengths(s.msgsOf), others) == 0 <==> forall k :: !FirstReadable(s, m, k)
  {
    var w := Lengths(s.msgsOf);
    TotalZero(w, others);
    AtClass(s, m, s.priorities[m]);
    if forall k :: !FirstReadable(s, m, k) {
      NoneReadable(s, m, s.priorities[m]);
      forall i | 0 <= i < |others|
        ensures w[others[i]] == 0
      {
        InRange(s, m, others[i]);
        AtClass(s, m, s.classes[others[i]]);
        assert InClass(s, m, s.classes[others[i]]) == [];
      }
      EmptyTotal(w, others);
    } else {
      var k :| FirstReadable(s, m, k);
      AtClass(s, m, k);
      assert QueueAt(s, m, k) in others;
    }
  }

  lemma InRange(s: Mail, m: MqBlock, q: QueueBlock)
    requires MailInv(s) && m in s.mqList && q in s.queuesOf[m]
    ensures 0 <= s.classes[q] <= s.priorities[m]
  {
    ListedClassFound(s, m, s.classes[q]);
    ByClassFinds(s, s.queuesOf[m], s.classes[q]);
  }
}
