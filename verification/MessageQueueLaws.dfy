/** What every message queue handler keeps: who owns each block, what num_messages counts, and that each
    queue is first in, first out. */
module MessageQueueLaws {
  import opened Bags
  import opened Timers
  import opened Processes
  import opened MessageQueues

  // ---- sums over a list of blocks

  ghost predicate Within(l: seq<int>, n: nat) {
    forall i :: 0 <= i < |l| ==> 0 <= l[i] < n
  }

  function Total(weights: seq<int>, l: seq<int>): int
    requires Within(l, |weights|)
  {
    if l == [] then 0 else weights[l[0]] + Total(weights, l[1..])
  }

  lemma {:induction false} TotalUpdate(w: seq<int>, l: seq<int>, x: nat, v: int)
    requires Within(l, |w|) && x < |w| && NoDuplicates(l)
    ensures Total(w[x := v], l) == Total(w, l) + if x in l then v - w[x] else 0
  {
    if l != [] {
      TotalUpdate(w, l[1..], x, v);
      if l[0] == x {
        assert x !in l[1..];
      }
    }
  }

  lemma {:induction false} TotalConcat(w: seq<int>, a: seq<int>, b: seq<int>)
    requires Within(a, |w|) && Within(b, |w|)
    ensures Total(w, a + b) == Total(w, a) + Total(w, b)
  {
    if a == [] {
      assert a + b == b;
    } else {
      assert (a + b)[1..] == a[1..] + b;
      TotalConcat(w, a[1..], b);
    }
  }

  lemma {:induction false} TotalWithout(w: seq<int>, l: seq<int>, k: nat)
    requires Within(l, |w|) && k < |l|
    ensures Total(w, l) == Total(w, l[..k] + l[k + 1..]) + w[l[k]]
  {
    if k == 0 {
      assert l[..0] + l[1..] == l[1..];
    } else {
      TotalWithout(w, l[1..], k - 1);
      assert (l[..k] + l[k + 1..])[1..] == l[1..][..k - 1] + l[1..][k..];
    }
  }

  /** A total of non-negative weights is zero only when every weight is. */
  lemma {:induction false} TotalZero(w: seq<int>, l: seq<int>)
    requires Within(l, |w|) && forall i :: 0 <= i < |l| ==> w[l[i]] >= 0
    ensures Total(w, l) >= 0
    ensures Total(w, l) == 0 ==> forall i :: 0 <= i < |l| ==> w[l[i]] == 0
  {
    if l != [] {
      TotalZero(w, l[1..]);
      assert forall i :: 0 < i < |l| ==> l[i] == l[1..][i - 1];
    }
  }

  // ---- the invariant

  ghost function MqBag(s: Mail): multiset<MqBlock> {
    multiset(s.freeMqs) + multiset(s.mqList) + multiset(s.unlisted)
  }

  ghost function QueueBag(s: Mail): multiset<QueueBlock> {
    multiset(s.freeQueues) + Sum<QueueBlock>(s.queuesOf)
  }

  ghost function MsgBag(s: Mail): multiset<MsgBlock> {
    multiset(s.freeMsgs) + Sum<MsgBlock>(s.msgsOf) + Sum<MsgBlock>(s.lost)
  }

  ghost function DescBag(s: Mail): multiset<Block> {
    multiset(s.freeDescs) + Sum<Block>(s.descsOf)
  }

  /** Every block of the four pools is free or in exactly one list, once. */
  ghost predicate BlocksPlaced(s: Mail) {
    && Exactly(MqBag(s), MAX_NUM_MQS)
    && Exactly(QueueBag(s), MAX_NUM_QUEUES)
    && Exactly(MsgBag(s), MAX_NUM_MESSAGES)
    && Exactly(DescBag(s), MAX_NUM_PROCESSES)
  }

  /** Free message queues and free queues own nothing. */
  ghost predicate FreeAreEmpty(s: Mail) {
    && (forall m :: m in s.freeMqs ==> s.queuesOf[m] == [] && s.lost[m] == [])
    && (forall q :: q in s.freeQueues ==> s.msgsOf[q] == [])
  }

  function Ranks(classes: IntPerQueue, qs: seq<QueueBlock>): (r: seq<int>)
    ensures |r| == |qs|
  {
    seq(|qs|, i requires 0 <= i < |qs| => classes[qs[i]])
  }

  /** A message queue has exactly one queue for each class 0..priority. */
  ghost predicate OnePerClass(s: Mail, m: MqBlock) {
    s.priorities[m] >= 0 && Exactly(multiset(Ranks(s.classes, s.queuesOf[m])), s.priorities[m] + 1)
  }

  ghost predicate Ranked(s: Mail) {
    forall m :: m in s.mqList ==> OnePerClass(s, m)
  }

  function Lengths(msgsOf: MsgsPerQueue): (w: IntPerQueue) {
    seq(MAX_NUM_QUEUES, q requires 0 <= q < MAX_NUM_QUEUES => |msgsOf[q]|)
  }

  /** How many messages the queues of m hold. */
  function Queued(s: Mail, m: MqBlock): int {
    Total(Lengths(s.msgsOf), s.queuesOf[m])
  }

  /** num_messages counts the messages in the queues and those dropped; its sum over the message queues
      is the number of message blocks in use. */
  ghost predicate Counted(s: Mail) {
    && (forall m :: m in s.mqList ==>
          0 <= s.nums[m] <= MAX_NUM_MESSAGES_PER_MQ && s.nums[m] == Queued(s, m) + |s.lost[m]|)
    && |s.freeMsgs| + Total(s.nums, s.mqList) == MAX_NUM_MESSAGES
  }

  function Contents(messages: MessageTable, l: seq<MsgBlock>): (r: seq<Message>)
    ensures |r| == |l|
  {
    seq(|l|, i requires 0 <= i < |l| => messages[l[i]])
  }

  function Outcomes(taken: seq<Taken>): (r: seq<Message>)
    ensures |r| == |taken|
  {
    seq(|taken|, i requires 0 <= i < |taken| => taken[i].message)
  }

  /** Each queue is first in, first out: what was written is what was taken followed by what is there. */
  ghost predicate InOrder(s: Mail) {
    forall q: QueueBlock :: s.written[q] == Outcomes(s.taken[q]) + Contents(s.messages, s.msgsOf[q])
  }

  ghost predicate LengthsBounded(s: Mail) {
    forall q: QueueBlock, i :: 0 <= i < |s.written[q]| ==> 0 <= s.written[q][i].length <= MAX_MESSAGE_LENGTH
  }

  /** The descriptors of live processes are among those of the message queue they open, and are counted by
      last_mq_fd. */
  ghost predicate DescsLinked(s: Mail) {
    && (forall m: MqBlock, d :: d in s.descsOf[m] ==> s.descs[d].mq == m)
    && (forall m: MqBlock :: s.descsOf[m] != [] ==> m in s.mqList)
    && (forall p: Block, d :: d in s.owned[p] ==> s.descs[d].owner == p && d in s.descsOf[s.descs[d].mq])
    && (forall p: Block :: NoDuplicates(s.owned[p]) && s.lastFd[p] == |s.owned[p]| <= MAX_NUM_MQDESCRIPTORS_PER_PROCESS)
  }

  ghost predicate IdsDistinct(s: Mail) {
    forall m, n :: m in s.mqList && n in s.mqList && s.ids[m] == s.ids[n] ==> m == n
  }

  ghost predicate MailInv(s: Mail) {
    && BlocksPlaced(s)
    && IdsDistinct(s)
    && FreeAreEmpty(s)
    && Ranked(s)
    && Counted(s)
    && InOrder(s)
    && LengthsBounded(s)
    && DescsLinked(s)
  }

  // ---- what the placement of blocks means for single blocks

  /** The queues of message queue m: each once, none free, none another's. */
  lemma QueuesApart(s: Mail, m: MqBlock)
    requires BlocksPlaced(s)
    ensures NoDuplicates(s.queuesOf[m]) && NoDuplicates(s.freeQueues)
    ensures forall q :: q in s.queuesOf[m] ==> q !in s.freeQueues
    ensures forall n: MqBlock, q :: n != m && q in s.queuesOf[m] ==> q !in s.queuesOf[n]
  {
    assert forall x: QueueBlock :: QueueBag(s)[x] <= 1;
    ListsApart<QueueBlock>(s.freeQueues, s.queuesOf, m);
  }

  lemma DescsApart(s: Mail, m: MqBlock)
    requires BlocksPlaced(s)
    ensures NoDuplicates(s.descsOf[m]) && NoDuplicates(s.freeDescs)
    ensures forall d :: d in s.descsOf[m] ==> d !in s.freeDescs
  {
    assert forall x: Block :: DescBag(s)[x] <= 1;
    ListsApart<Block>(s.freeDescs, s.descsOf, m);
  }

  lemma MessagesApart(s: Mail, q: QueueBlock)
    requires BlocksPlaced(s)
    ensures NoDuplicates(s.msgsOf[q])
    ensures forall b :: b in s.msgsOf[q] ==> b !in s.freeMsgs
  {
    forall x: MsgBlock
      ensures (multiset(s.freeMsgs) + Sum<MsgBlock>(s.msgsOf))[x] <= 1
    {
      assert MsgBag(s)[x] <= 1;
    }
    ListsApart<MsgBlock>(s.freeMsgs, s.msgsOf, q);
  }

  lemma MqsApart(s: Mail)
    requires BlocksPlaced(s)
    ensures NoDuplicates(s.mqList) && NoDuplicates(s.freeMqs)
    ensures forall m :: m in s.mqList ==> m !in s.freeMqs && m !in s.unlisted
    ensures forall m :: m in s.freeMqs ==> m !in s.unlisted
  {
    forall x: MqBlock
      ensures multiset(s.freeMqs)[x] + multiset(s.mqList)[x] + multiset(s.unlisted)[x] <= 1
      ensures x in s.mqList ==> x !in s.freeMqs && x !in s.unlisted
      ensures x in s.freeMqs ==> x !in s.unlisted
    {
      assert MqBag(s)[x] <= 1;
      assert x in s.mqList <==> multiset(s.mqList)[x] > 0;
      assert x in s.freeMqs <==> multiset(s.freeMqs)[x] > 0;
      assert x in s.unlisted <==> multiset(s.unlisted)[x] > 0;
    }
    BagNoDuplicates<MqBlock>(s.mqList);
    BagNoDuplicates<MqBlock>(s.freeMqs);
  }

  // ---- QueueList_byPriority

  lemma {:induction false} ByClassFinds(s: Mail, qs: seq<QueueBlock>, rank: int)
    ensures ByClass(s, qs, rank).Some? ==>
              ByClass(s, qs, rank).value in qs && s.classes[ByClass(s, qs, rank).value] == rank
    ensures ByClass(s, qs, rank).None? ==> forall q :: q in qs ==> s.classes[q] != rank
  {
    if qs != [] && s.classes[qs[0]] != rank {
      ByClassFinds(s, qs[1..], rank);
      assert forall q :: q in qs ==> q == qs[0] || q in qs[1..];
    }
  }

  /** The lookup never misses a class in 0..priority, and finds the only queue of that class. */
  lemma ClassFound(s: Mail, m: MqBlock, rank: int)
    requires OnePerClass(s, m)
    ensures ByClass(s, s.queuesOf[m], rank).Some? <==> 0 <= rank <= s.priorities[m]
    ensures 0 <= rank <= s.priorities[m] ==>
              var q := ByClass(s, s.queuesOf[m], rank).value;
              q in s.queuesOf[m] && forall x :: x in s.queuesOf[m] ==> (s.classes[x] == rank <==> x == q)
  {
    var qs := s.queuesOf[m];
    var ranks := Ranks(s.classes, qs);
    ByClassFinds(s, qs, rank);
    assert rank in multiset(ranks) <==> 0 <= rank <= s.priorities[m];
    assert rank in ranks <==> rank in multiset(ranks);
    if ByClass(s, qs, rank).Some? {
      var k :| 0 <= k < |qs| && qs[k] == ByClass(s, qs, rank).value;
      assert ranks[k] == rank;
    }
    if rank in ranks {
      var i :| 0 <= i < |ranks| && ranks[i] == rank;
      assert qs[i] in qs && s.classes[qs[i]] == rank;
      assert forall x :: multiset(ranks)[x] <= 1;
      BagNoDuplicates(ranks);
      var q := ByClass(s, qs, rank).value;
      forall x | x in qs
        ensures s.classes[x] == rank <==> x == q
      {
        var j :| 0 <= j < |qs| && qs[j] == x;
        var k :| 0 <= k < |qs| && qs[k] == q;
        assert ranks[j] == s.classes[x] && ranks[k] == rank;
      }
    }
  }

  /** The same in a well-formed state. */
  lemma ListedClassFound(s: Mail, m: MqBlock, rank: int)
    requires MailInv(s) && m in s.mqList
    ensures s.priorities[m] >= 0
    ensures ByClass(s, s.queuesOf[m], rank).Some? <==> 0 <= rank <= s.priorities[m]
    ensures 0 <= rank <= s.priorities[m] ==>
              var q := ByClass(s, s.queuesOf[m], rank).value;
              q in s.queuesOf[m] && forall x :: x in s.queuesOf[m] ==> (s.classes[x] == rank <==> x == q)
  {
    ClassFound(s, m, rank);
  }

  // ---- a message enters a queue

  lemma PutPlaced(s: Mail, m: MqBlock, q: QueueBlock, message: Message)
    requires BlocksPlaced(s) && s.freeMsgs != []
    ensures BlocksPlaced(Put(s, m, q, message))
  {
    var t := Put(s, m, q, message);
    PopFront<MsgBlock>(s.freeMsgs);
    SumGains<MsgBlock>(s.msgsOf, q, s.freeMsgs[0]);
    assert MsgBag(t) == MsgBag(s);
    assert MqBag(t) == MqBag(s) && QueueBag(t) == QueueBag(s) && DescBag(t) == DescBag(s);
  }

  lemma LengthsUpdate(msgsOf: MsgsPerQueue, q: QueueBlock, l: seq<MsgBlock>)
    ensures Lengths(msgsOf[q := l]) == Lengths(msgsOf)[q := |l|]
  {
  }

  /** The number of messages queued for each message queue, when the list of queue q changes. */
  lemma QueuedUpdate(s: Mail, t: Mail, m: MqBlock, q: QueueBlock, l: seq<MsgBlock>)
    requires BlocksPlaced(s) && t.queuesOf == s.queuesOf && t.msgsOf == s.msgsOf[q := l] && q in s.queuesOf[m]
    ensures forall n: MqBlock :: Queued(t, n) == Queued(s, n) + if n == m then |l| - |s.msgsOf[q]| else 0
  {
    LengthsUpdate(s.msgsOf, q, l);
    forall n: MqBlock
      ensures Queued(t, n) == Queued(s, n) + if n == m then |l| - |s.msgsOf[q]| else 0
    {
      QueuesApart(s, n);
      TotalUpdate(Lengths(s.msgsOf), s.queuesOf[n], q, |l|);
    }
  }

  lemma PutCounted(s: Mail, m: MqBlock, q: QueueBlock, message: Message)
    requires BlocksPlaced(s) && Counted(s)
    requires m in s.mqList && q in s.queuesOf[m] && s.freeMsgs != [] && s.nums[m] < MAX_NUM_MESSAGES_PER_MQ
    ensures Counted(Put(s, m, q, message))
  {
    var t := Put(s, m, q, message);
    QueuedUpdate(s, t, m, q, t.msgsOf[q]);
    MqsApart(s);
    TotalUpdate(s.nums, s.mqList, m, s.nums[m] + 1);
  }

  lemma PutInOrder(s: Mail, m: MqBlock, q: QueueBlock, message: Message)
    requires BlocksPlaced(s) && InOrder(s) && s.freeMsgs != []
    ensures InOrder(Put(s, m, q, message))
  {
    var t := Put(s, m, q, message);
    forall x: QueueBlock
      ensures t.written[x] == Outcomes(t.taken[x]) + Contents(t.messages, t.msgsOf[x])
    {
      MessagesApart(s, x);
      assert s.freeMsgs[0] !in s.msgsOf[x];
      assert Contents(t.messages, s.msgsOf[x]) == Contents(s.messages, s.msgsOf[x]);
      if x == q {
        assert Contents(t.messages, t.msgsOf[q]) == Contents(s.messages, s.msgsOf[q]) + [message];
      }
    }
  }

  lemma PutLengths(s: Mail, m: MqBlock, q: QueueBlock, message: Message)
    requires LengthsBounded(s) && s.freeMsgs != [] && 0 <= message.length <= MAX_MESSAGE_LENGTH
    ensures LengthsBounded(Put(s, m, q, message))
  {
    var t := Put(s, m, q, message);
    forall x: QueueBlock, i | 0 <= i < |t.written[x]|
      ensures 0 <= t.written[x][i].length <= MAX_MESSAGE_LENGTH
    {
      if i < |s.written[x]| {
        assert t.written[x][i] == s.written[x][i];
      }
    }
  }

  /** Only the list of one queue in use changes, and what is lost to one message queue in the list. */
  lemma FreeStayEmpty(s: Mail, t: Mail, m: MqBlock, q: QueueBlock)
    requires BlocksPlaced(s) && FreeAreEmpty(s) && m in s.mqList && q in s.queuesOf[m]
    requires t.freeMqs == s.freeMqs && t.queuesOf == s.queuesOf && t.freeQueues == s.freeQueues
    requires t.lost == s.lost[m := t.lost[m]] && t.msgsOf == s.msgsOf[q := t.msgsOf[q]]
    ensures FreeAreEmpty(t)
  {
    QueuesApart(s, m);
    MqsApart(s);
  }

  lemma PutKeeps(s: Mail, m: MqBlock, q: QueueBlock, message: Message)
    requires MailInv(s) && m in s.mqList && q in s.queuesOf[m] && s.freeMsgs != []
    requires s.nums[m] < MAX_NUM_MESSAGES_PER_MQ && 0 <= message.length <= MAX_MESSAGE_LENGTH
    ensures MailInv(Put(s, m, q, message))
  {
    PutPlaced(s, m, q, message);
    PutCounted(s, m, q, message);
    PutInOrder(s, m, q, message);
    PutLengths(s, m, q, message);
    FreeStayEmpty(s, Put(s, m, q, message), m, q);
  }

  // ---- a message leaves a queue

  lemma GetPlaced(s: Mail, m: MqBlock, q: QueueBlock)
    requires BlocksPlaced(s) && s.msgsOf[q] != []
    ensures BlocksPlaced(Get(s, m, q))
  {
    var t := Get(s, m, q);
    PopFront<MsgBlock>(s.msgsOf[q]);
    SumLoses<MsgBlock>(s.msgsOf, q, s.msgsOf[q][1..], s.msgsOf[q][0]);
    assert MsgBag(t) == MsgBag(s);
    assert MqBag(t) == MqBag(s) && QueueBag(t) == QueueBag(s) && DescBag(t) == DescBag(s);
  }

  lemma DropPlaced(s: Mail, m: MqBlock, q: QueueBlock)
    requires BlocksPlaced(s) && s.msgsOf[q] != []
    ensures BlocksPlaced(Drop(s, m, q))
  {
    var t := Drop(s, m, q);
    PopFront<MsgBlock>(s.msgsOf[q]);
    SumLoses<MsgBlock>(s.msgsOf, q, s.msgsOf[q][1..], s.msgsOf[q][0]);
    SumGains<MsgBlock>(s.lost, m, s.msgsOf[q][0]);
    assert MsgBag(t) == MsgBag(s);
    assert MqBag(t) == MqBag(s) && QueueBag(t) == QueueBag(s) && DescBag(t) == DescBag(s);
  }

  lemma GetCounted(s: Mail, m: MqBlock, q: QueueBlock)
    requires BlocksPlaced(s) && Counted(s) && m in s.mqList && q in s.queuesOf[m] && s.msgsOf[q] != []
    ensures Counted(Get(s, m, q))
  {
    var t := Get(s, m, q);
    QueuedUpdate(s, t, m, q, t.msgsOf[q]);
    MqsApart(s);
    TotalUpdate(s.nums, s.mqList, m, s.nums[m] - 1);
    QueuedNotNegative(t, m);
  }

  lemma DropCounted(s: Mail, m: MqBlock, q: QueueBlock)
    requires BlocksPlaced(s) && Counted(s) && m in s.mqList && q in s.queuesOf[m] && s.msgsOf[q] != []
    ensures Counted(Drop(s, m, q))
  {
    var t := Drop(s, m, q);
    QueuedUpdate(s, t, m, q, t.msgsOf[q]);
  }

  lemma QueuedNotNegative(s: Mail, m: MqBlock)
    ensures Queued(s, m) >= 0
    ensures Queued(s, m) == 0 ==> forall q :: q in s.queuesOf[m] ==> s.msgsOf[q] == []
  {
    TotalZero(Lengths(s.msgsOf), s.queuesOf[m]);
    assert forall q: QueueBlock :: Lengths(s.msgsOf)[q] == |s.msgsOf[q]|;
  }

  /** The head of a queue moves to the end of what was taken from it. */
  lemma TakenInOrder(s: Mail, t: Mail, q: QueueBlock, delivered: bool)
    requires InOrder(s) && s.msgsOf[q] != []
    requires t.messages == s.messages && t.written == s.written && t.msgsOf == s.msgsOf[q := s.msgsOf[q][1..]]
    requires t.taken == s.taken[q := s.taken[q] + [Taken(s.messages[s.msgsOf[q][0]], delivered)]]
    ensures InOrder(t)
  {
    forall x: QueueBlock
      ensures t.written[x] == Outcomes(t.taken[x]) + Contents(t.messages, t.msgsOf[x])
    {
      if x == q {
        assert Outcomes(t.taken[q]) == Outcomes(s.taken[q]) + [s.messages[s.msgsOf[q][0]]];
        assert Contents(s.messages, s.msgsOf[q]) == [s.messages[s.msgsOf[q][0]]] + Contents(t.messages, t.msgsOf[q]);
      }
    }
  }

  lemma GetKeeps(s: Mail, m: MqBlock, q: QueueBlock)
    requires MailInv(s) && m in s.mqList && q in s.queuesOf[m] && s.msgsOf[q] != []
    ensures MailInv(Get(s, m, q))
  {
    GetPlaced(s, m, q);
    GetCounted(s, m, q);
    TakenInOrder(s, Get(s, m, q), q, true);
    FreeStayEmpty(s, Get(s, m, q), m, q);
  }

  lemma DropKeeps(s: Mail, m: MqBlock, q: QueueBlock)
    requires MailInv(s) && m in s.mqList && q in s.queuesOf[m] && s.msgsOf[q] != []
    ensures MailInv(Drop(s, m, q))
  {
    DropPlaced(s, m, q);
    DropCounted(s, m, q);
    TakenInOrder(s, Drop(s, m, q), q, false);
    FreeStayEmpty(s, Drop(s, m, q), m, q);
  }

  lemma {:induction false} ReadFromKeeps(s: Mail, m: MqBlock, i: nat, bufSize: int)
    requires MailInv(s) && m in s.mqList
    ensures MailInv(ReadFrom(s, m, i, bufSize).0)
    decreases s.priorities[m] - i
  {
    hide MailInv;
    if i < s.priorities[m] {
      ListedClassFound(s, m, i);
      var q := ByClass(s, s.queuesOf[m], i).value;
      if s.msgsOf[q] == [] {
        ReadFromKeeps(s, m, i + 1, bufSize);
      } else if bufSize >= s.messages[s.msgsOf[q][0]].length {
        GetKeeps(s, m, q);
      } else {
        DropKeeps(s, m, q);
        ReadFromKeeps(Drop(s, m, q), m, i + 1, bufSize);
      }
    }
  }
}
