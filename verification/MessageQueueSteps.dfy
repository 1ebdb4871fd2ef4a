/** Opening, closing and unlinking keep the invariant, and so does every run of the message queue calls. */
module MessageQueueSteps {
  import opened Bags
  import opened Timers
  import opened Processes
  import opened MessageQueues
  import opened MessageQueueLaws

  // ---- descriptors

  lemma {:induction false} ByFdFinds(s: Mail, ds: seq<Block>, fd: int)
    ensures ByFd(s, ds, fd).Some? ==> ByFd(s, ds, fd).value in ds && s.descs[ByFd(s, ds, fd).value].fd == fd
    ensures ByFd(s, ds, fd).None? ==> forall d :: d in ds ==> s.descs[d].fd != fd
  {
    if ds != [] && s.descs[ds[0]].fd != fd {
      ByFdFinds(s, ds[1..], fd);
      assert forall d :: d in ds ==> d == ds[0] || d in ds[1..];
    }
  }

  lemma {:induction false} ByIdFinds(s: Mail, ms: seq<MqBlock>, id: int)
    ensures ById(s, ms, id).Some? ==> ById(s, ms, id).value in ms && s.ids[ById(s, ms, id).value] == id
    ensures ById(s, ms, id).None? ==> forall m :: m in ms ==> s.ids[m] != id
  {
    if ms != [] && s.ids[ms[0]] != id {
      ByIdFinds(s, ms[1..], id);
      assert forall m :: m in ms ==> m == ms[0] || m in ms[1..];
    }
  }

  /** A descriptor that a process can name belongs to it, and opens a message queue that is in the list. */
  lemma LookupLinked(s: Mail, p: Block, fd: int)
    requires MailInv(s) && Lookup(s, p, fd).Some?
    ensures var d := Lookup(s, p, fd).value;
            d in s.owned[p] && d in s.descsOf[s.descs[d].mq] && s.descs[d].mq in s.mqList
  {
    ByFdFinds(s, s.owned[p], fd);
  }

  lemma AttachPlaced(s: Mail, p: Block, m: MqBlock)
    requires BlocksPlaced(s)
    ensures BlocksPlaced(Attach(s, p, m).0)
  {
    var t := Attach(s, p, m).0;
    if s.freeDescs != [] {
      PopFront<Block>(s.freeDescs);
      SumGains<Block>(s.descsOf, m, s.freeDescs[0]);
      assert DescBag(t) == DescBag(s);
      assert MqBag(t) == MqBag(s) && QueueBag(t) == QueueBag(s) && MsgBag(t) == MsgBag(s);
    }
  }

  lemma AttachLinked(s: Mail, p: Block, m: MqBlock)
    requires BlocksPlaced(s) && DescsLinked(s) && m in s.mqList
    requires s.freeDescs != [] && s.lastFd[p] + 1 <= MAX_NUM_MQDESCRIPTORS_PER_PROCESS
    ensures DescsLinked(Attach(s, p, m).0)
  {
    var t := Attach(s, p, m).0;
    var d := s.freeDescs[0];
    forall n: MqBlock
      ensures d !in s.descsOf[n]
    {
      DescsApart(s, n);
    }
    assert forall n: MqBlock, x :: x in t.descsOf[n] ==> t.descs[x].mq == n;
    assert d !in s.descsOf[s.descs[d].mq];
    assert forall q: Block :: d !in s.owned[q];
    assert forall q: Block, x :: x in t.owned[q] ==> t.descs[x].owner == q && x in t.descsOf[t.descs[x].mq];
  }

  lemma AttachKeeps(s: Mail, p: Block, m: MqBlock)
    requires MailInv(s) && m in s.mqList && s.lastFd[p] + 1 <= MAX_NUM_MQDESCRIPTORS_PER_PROCESS
    ensures MailInv(Attach(s, p, m).0)
  {
    if s.freeDescs != [] {
      AttachPlaced(s, p, m);
      AttachLinked(s, p, m);
    }
  }

  lemma DetachPlaced(s: Mail, p: Block, d: Block)
    requires BlocksPlaced(s) && d in s.descsOf[s.descs[d].mq]
    ensures BlocksPlaced(Detach(s, p, d))
  {
    var t := Detach(s, p, d);
    var m := s.descs[d].mq;
    RemoveBag<Block>(s.descsOf[m], d);
    SumLoses<Block>(s.descsOf, m, t.descsOf[m], d);
    assert DescBag(t) == DescBag(s);
    assert MqBag(t) == MqBag(s) && QueueBag(t) == QueueBag(s) && MsgBag(t) == MsgBag(s);
  }

  lemma DetachLinked(s: Mail, p: Block, d: Block)
    requires BlocksPlaced(s) && DescsLinked(s) && d in s.owned[p]
    ensures DescsLinked(Detach(s, p, d))
  {
    var t := Detach(s, p, d);
    var m := s.descs[d].mq;
    DescsApart(s, m);
    RemovedIsGone<Block>(s.owned[p], d);
    RemoveNoDuplicates<Block>(s.owned[p], d);
    RemovedIsGone<Block>(s.descsOf[m], d);
    assert forall n: MqBlock, x :: x in t.descsOf[n] ==> x in s.descsOf[n];
    assert forall q: Block, x :: x in t.owned[q] ==> x in s.owned[q] && x != d;
  }

  lemma DetachKeeps(s: Mail, p: Block, d: Block)
    requires MailInv(s) && d in s.owned[p]
    ensures MailInv(Detach(s, p, d))
  {
    DetachPlaced(s, p, d);
    DetachLinked(s, p, d);
  }

  // ---- what does not change

  /** What concerns the queues depends on these fields only. */
  lemma SameQueues(s: Mail, t: Mail)
    requires t.queuesOf == s.queuesOf && t.classes == s.classes && t.priorities == s.priorities && t.msgsOf == s.msgsOf
    ensures forall n: MqBlock :: Queued(t, n) == Queued(s, n) && (OnePerClass(s, n) <==> OnePerClass(t, n))
  {
  }

  /** The logs, and the descriptors, depend on these fields only. */
  lemma SameLogs(s: Mail, t: Mail)
    requires InOrder(s) && LengthsBounded(s)
    requires t.written == s.written && t.taken == s.taken && t.messages == s.messages && t.msgsOf == s.msgsOf
    ensures InOrder(t) && LengthsBounded(t)
  {
  }

  lemma SameDescs(s: Mail, t: Mail)
    requires DescsLinked(s)
    requires t.descs == s.descs && t.descsOf == s.descsOf && t.owned == s.owned && t.lastFd == s.lastFd
    requires forall m: MqBlock :: m in s.mqList && s.descsOf[m] != [] ==> m in t.mqList
    ensures DescsLinked(t)
  {
  }

  /** Only the three lists of message queue blocks change, and only by a permutation. */
  lemma MovePlaced(s: Mail, t: Mail)
    requires BlocksPlaced(s) && MqBag(t) == MqBag(s)
    requires t.freeQueues == s.freeQueues && t.queuesOf == s.queuesOf && t.freeMsgs == s.freeMsgs
    requires t.msgsOf == s.msgsOf
    requires t.lost == s.lost && t.freeDescs == s.freeDescs && t.descsOf == s.descsOf
    ensures BlocksPlaced(t)
  {
    assert QueueBag(t) == QueueBag(s) && MsgBag(t) == MsgBag(s) && DescBag(t) == DescBag(s);
  }

  // ---- creation

  /** NewMq writes fields of a free block only, and those lists were empty. */
  lemma NewMqCounted(s: Mail, id: int, priority: int)
    requires MailInv(s) && s.freeMqs != []
    ensures var t := NewMq(s, id, priority); Counted(t) && Ranked(t)
  {
    hide BlocksPlaced, IdsDistinct, InOrder, LengthsBounded, DescsLinked, Exactly;
    var t := NewMq(s, id, priority);
    MqsApart(s);
    assert s.freeMqs[0] in s.freeMqs;
    assert t.queuesOf == s.queuesOf && t.lost == s.lost;
    UnlistedCounted(s, t, s.freeMqs[0]);
  }

  /** Resetting a message queue that is not in the list does not show in the counts. */
  lemma UnlistedCounted(s: Mail, t: Mail, m: MqBlock)
    requires Counted(s) && Ranked(s) && m !in s.mqList && NoDuplicates(s.mqList)
    requires t.mqList == s.mqList && t.freeMsgs == s.freeMsgs && t.nums == s.nums[m := t.nums[m]]
    requires t.queuesOf == s.queuesOf && t.lost == s.lost && t.msgsOf == s.msgsOf && t.classes == s.classes
    requires t.priorities == s.priorities[m := t.priorities[m]]
    ensures Counted(t) && Ranked(t)
  {
    hide Exactly, Queued;
    TotalUpdate(s.nums, s.mqList, m, t.nums[m]);
    forall n | n in s.mqList
      ensures OnePerClass(t, n) && Queued(t, n) == Queued(s, n)
    {
      SameQueued(s, t, n);
      assert OnePerClass(s, n);
    }
  }

  lemma NewMqPlaced(s: Mail, id: int, priority: int)
    requires MailInv(s) && s.freeMqs != []
    ensures var t := NewMq(s, id, priority);
            BlocksPlaced(t) && IdsDistinct(t) && t.queuesOf == s.queuesOf && t.lost == s.lost && t.descsOf == s.descsOf
  {
    var t := NewMq(s, id, priority);
    var m := s.freeMqs[0];
    MqsApart(s);
    assert s.descsOf[m] == [];
    assert IdsDistinct(t);
    hide IdsDistinct, Counted, Ranked, InOrder, LengthsBounded, DescsLinked, BlocksPlaced;
    assert t.queuesOf == s.queuesOf && t.lost == s.lost && t.descsOf == s.descsOf;
    PopFront<MqBlock>(s.freeMqs);
    assert MqBag(t) == MqBag(s);
    MovePlaced(s, t);
  }

  lemma NewMqKeeps(s: Mail, id: int, priority: int)
    requires MailInv(s) && s.freeMqs != []
    ensures MailInv(NewMq(s, id, priority))
  {
    var t := NewMq(s, id, priority);
    NewMqPlaced(s, id, priority);
    NewMqCounted(s, id, priority);
    hide IdsDistinct, Counted, Ranked, InOrder, LengthsBounded, DescsLinked, BlocksPlaced;
    SameLogs(s, t);
    SameDescs(s, t);
  }

  /** The classes i-1, ..., 0: those of the queues in front of each other after i turns of the loop. */
  function Descending(i: nat): (r: seq<int>)
    ensures |r| == i
  {
    seq(i, k => i - 1 - k)
  }

  lemma {:induction false} DescendingExact(i: nat)
    ensures Exactly(multiset(Descending(i)), i)
  {
    if i > 0 {
      DescendingExact(i - 1);
      assert Descending(i) == [i - 1] + Descending(i - 1);
    }
  }

  /** A change of class of a free queue does not show in the message queues. */
  lemma RanksKept(s: Mail, m: MqBlock, q: QueueBlock, rank: int)
    requires BlocksPlaced(s) && q in s.freeQueues
    ensures Ranks(s.classes[q := rank], s.queuesOf[m]) == Ranks(s.classes, s.queuesOf[m])
  {
    QueuesApart(s, m);
  }

  lemma AddQueuePlaced(s: Mail, m: MqBlock, rank: int)
    requires BlocksPlaced(s) && FreeAreEmpty(s) && s.freeQueues != []
    ensures BlocksPlaced(AddQueue(s, m, rank)) && AddQueue(s, m, rank).msgsOf == s.msgsOf
  {
    var t := AddQueue(s, m, rank);
    var q := s.freeQueues[0];
    PopFront<QueueBlock>(s.freeQueues);
    SumUpdate<QueueBlock>(s.queuesOf, m, [q] + s.queuesOf[m]);
    assert multiset([q] + s.queuesOf[m]) == multiset{q} + multiset(s.queuesOf[m]);
    Cancel<QueueBlock>(Sum<QueueBlock>(t.queuesOf), Sum<QueueBlock>(s.queuesOf) + multiset{q}, multiset(s.queuesOf[m]));
    assert QueueBag(t) == QueueBag(s);
    assert t.msgsOf == s.msgsOf;
    assert MqBag(t) == MqBag(s) && MsgBag(t) == MsgBag(s) && DescBag(t) == DescBag(s);
  }

  lemma AddQueueRanks(s: Mail, m: MqBlock, rank: nat)
    requires BlocksPlaced(s) && Ranked(s) && m in s.unlisted && s.freeQueues != []
    requires Ranks(s.classes, s.queuesOf[m]) == Descending(rank)
    ensures Ranked(AddQueue(s, m, rank))
    ensures var t := AddQueue(s, m, rank); Ranks(t.classes, t.queuesOf[m]) == Descending(rank + 1)
  {
    var t := AddQueue(s, m, rank);
    var q := s.freeQueues[0];
    MqsApart(s);
    forall n: MqBlock
      ensures Ranks(t.classes, s.queuesOf[n]) == Ranks(s.classes, s.queuesOf[n])
    {
      RanksKept(s, n, q, rank);
    }
    assert forall n :: n in s.mqList ==> OnePerClass(s, n) && OnePerClass(t, n);
    assert Descending(rank + 1) == [rank] + Descending(rank);
    assert Ranks(t.classes, t.queuesOf[m]) == [rank] + Ranks(t.classes, s.queuesOf[m]);
  }

  lemma AddQueueLogs(s: Mail, m: MqBlock, rank: int)
    requires InOrder(s) && LengthsBounded(s) && s.freeQueues != [] && AddQueue(s, m, rank).msgsOf == s.msgsOf
    ensures InOrder(AddQueue(s, m, rank)) && LengthsBounded(AddQueue(s, m, rank))
  {
    var t := AddQueue(s, m, rank);
    assert t.messages == s.messages;
  }

  /** Only the queues of a message queue outside the list change. */
  lemma CountedElsewhere(s: Mail, t: Mail, m: MqBlock)
    requires Counted(s) && m !in s.mqList
    requires t.mqList == s.mqList && t.nums == s.nums && t.lost == s.lost && t.freeMsgs == s.freeMsgs
    requires t.msgsOf == s.msgsOf
    requires t.queuesOf == s.queuesOf[m := t.queuesOf[m]]
    ensures Counted(t)
  {
    assert forall n :: n in s.mqList ==> Queued(t, n) == Queued(s, n);
  }

  lemma AddQueueKeeps(s: Mail, m: MqBlock, rank: nat)
    requires MailInv(s) && s.mqList == [] && m in s.unlisted && s.freeQueues != []
    requires Ranks(s.classes, s.queuesOf[m]) == Descending(rank)
    ensures MailInv(AddQueue(s, m, rank))
    ensures var t := AddQueue(s, m, rank); Ranks(t.classes, t.queuesOf[m]) == Descending(rank + 1)
  {
    var t := AddQueue(s, m, rank);
    AddQueuePlaced(s, m, rank);
    AddQueueRanks(s, m, rank);
    MqsApart(s);
    CountedElsewhere(s, t, m);
    AddQueueLogs(s, m, rank);
    hide Counted, Ranked, InOrder, LengthsBounded, DescsLinked, BlocksPlaced, Ranks, Descending;
    SameDescs(s, t);
    assert FreeAreEmpty(t);
  }

  /** The loop builds the classes in decreasing order, one queue each, as far as the pool lasts. */
  lemma {:induction false} AddQueuesKeeps(s: Mail, m: MqBlock, i: nat, priority: int)
    requires MailInv(s) && s.mqList == [] && m in s.unlisted && i <= priority + 1
    requires Ranks(s.classes, s.queuesOf[m]) == Descending(i)
    ensures var t := AddQueues(s, m, i, priority); MailInv(t) && AddQueuesFrame(s, t, m)
    ensures var t := AddQueues(s, m, i, priority); var n := priority + 1 - i;
            if n <= |s.freeQueues|
            then Ranks(t.classes, t.queuesOf[m]) == Descending(priority + 1) && t.freeQueues == s.freeQueues[n..]
            else t.freeQueues == []
    decreases priority - i
  {
    hide MailInv;
    if i <= priority && s.freeQueues != [] {
      AddQueueKeeps(s, m, i);
      AddQueuesKeeps(AddQueue(s, m, i), m, i + 1, priority);
    }
  }

  ghost predicate AddQueuesFrame(s: Mail, t: Mail, m: MqBlock) {
    && t.mqList == s.mqList && t.freeMqs == s.freeMqs && t.unlisted == s.unlisted && t.ids == s.ids
    && t.priorities == s.priorities && t.nums == s.nums && t.queuesOf == s.queuesOf[m := t.queuesOf[m]]
    && t.descsOf == s.descsOf && t.lost == s.lost && t.freeMsgs == s.freeMsgs && t.messages == s.messages
    && t.descs == s.descs && t.freeDescs == s.freeDescs && t.owned == s.owned && t.lastFd == s.lastFd
  }

  lemma EnlistMqCounted(s: Mail, m: MqBlock, unlisted: seq<MqBlock>)
    requires Counted(s) && Ranked(s) && OnePerClass(s, m) && s.nums[m] == 0 && s.lost[m] == [] && Queued(s, m) == 0
    ensures Counted(EnlistMq(s, m, unlisted)) && Ranked(EnlistMq(s, m, unlisted))
  {
    var t := EnlistMq(s, m, unlisted);
    TotalConcat(s.nums, s.mqList, [m]);
    assert Total(s.nums, [m]) == 0;
    SameQueues(s, t);
    hide OnePerClass;
    hide Queued;
    assert forall n :: n in t.mqList <==> n in s.mqList || n == m;
  }

  lemma EnlistMqKeeps(s: Mail, m: MqBlock, unlisted: seq<MqBlock>)
    requires MailInv(s) && s.unlisted == unlisted + [m] && OnePerClass(s, m)
    requires s.nums[m] == 0 && s.lost[m] == [] && Queued(s, m) == 0 && s.mqList == []
    ensures MailInv(EnlistMq(s, m, unlisted))
  {
    var t := EnlistMq(s, m, unlisted);
    EnlistMqCounted(s, m, unlisted);
    hide Counted, Ranked, InOrder, LengthsBounded, DescsLinked, BlocksPlaced;
    assert MqBag(t) == MqBag(s);
    MovePlaced(s, t);
    SameLogs(s, t);
    SameDescs(s, t);
  }

  /** New queues are empty. */
  lemma {:induction false} AddQueuesEmpty(s: Mail, m: MqBlock, i: nat, priority: int)
    requires forall q :: q in s.queuesOf[m] ==> s.msgsOf[q] == []
    ensures var t := AddQueues(s, m, i, priority); Queued(t, m) == 0
    decreases priority - i
  {
    if i > priority || s.freeQueues == [] {
      EmptyTotal(Lengths(s.msgsOf), s.queuesOf[m]);
    } else {
      AddQueuesEmpty(AddQueue(s, m, i), m, i + 1, priority);
    }
  }

  lemma {:induction false} EmptyTotal(w: seq<int>, l: seq<int>)
    requires Within(l, |w|) && forall i :: 0 <= i < |l| ==> w[l[i]] == 0
    ensures Total(w, l) == 0
  {
    if l != [] {
      assert forall i :: 0 <= i < |l[1..]| ==> l[1..][i] == l[i + 1];
      EmptyTotal(w, l[1..]);
    }
  }

  /** What a creation makes of the state before the descriptor, when there are queues enough. */
  function WithNewMq(s: Mail, id: int, priority: int): Mail
    requires s.freeMqs != []
  {
    EnlistMq(AddQueues(NewMq(s, id, priority), s.freeMqs[0], 0, priority), s.freeMqs[0], s.unlisted)
  }

  lemma NewMqBuilds(s: Mail, id: int, priority: nat)
    requires MailInv(s) && s.mqList == [] && s.freeMqs != []
    ensures var m := s.freeMqs[0]; var t := AddQueues(NewMq(s, id, priority), m, 0, priority);
            && MailInv(t) && AddQueuesFrame(NewMq(s, id, priority), t, m) && Queued(t, m) == 0
            && (if priority + 1 <= |s.freeQueues|
                then Ranks(t.classes, t.queuesOf[m]) == Descending(priority + 1)
                     && t.freeQueues == s.freeQueues[priority + 1..]
                else t.freeQueues == [])
  {
    hide MailInv;
    NewMqKeeps(s, id, priority);
    AddQueuesKeeps(NewMq(s, id, priority), s.freeMqs[0], 0, priority);
    AddQueuesEmpty(NewMq(s, id, priority), s.freeMqs[0], 0, priority);
  }

  lemma DescendingIsOnePerClass(s: Mail, m: MqBlock)
    requires s.priorities[m] >= 0 && Ranks(s.classes, s.queuesOf[m]) == Descending(s.priorities[m] + 1)
    ensures OnePerClass(s, m)
  {
    DescendingExact(s.priorities[m] + 1);
  }

  /** A successful creation: a new message queue in the list, with one empty queue for each class 0..priority. */
  lemma WithNewMqKeeps(s: Mail, id: int, priority: nat)
    requires MailInv(s) && s.freeMqs != [] && priority + 1 <= |s.freeQueues| && s.mqList == []
    ensures var t := WithNewMq(s, id, priority); var m := s.freeMqs[0];
            && MailInv(t) && m in t.mqList && t.lastFd == s.lastFd && OnePerClass(t, m) && Queued(t, m) == 0
            && t.freeQueues == s.freeQueues[priority + 1..] && t.priorities[m] == priority
  {
    MqsApart(s);
    hide MailInv, Queued, OnePerClass, BlocksPlaced, AddQueues, Ranks, Descending;
    var m := s.freeMqs[0];
    var t := AddQueues(NewMq(s, id, priority), m, 0, priority);
    NewMqBuilds(s, id, priority);
    DescendingIsOnePerClass(t, m);
    EnlistMqKeeps(t, m, s.unlisted);
    SameQueued(t, WithNewMq(s, id, priority), m);
  }

  lemma SameQueued(s: Mail, t: Mail, m: MqBlock)
    requires t.msgsOf == s.msgsOf && t.queuesOf == s.queuesOf
    ensures Queued(s, m) == Queued(t, m)
  {
  }

  lemma OpenKeeps(s: Mail, p: Block, id: int, flags: int, priority: int)
    requires MailInv(s) && (Creates(s, p, id, flags, priority) ==> s.mqList == [])
    ensures MailInv(Open(s, p, id, flags, priority).0)
  {
    hide MailInv;
    var found := ById(s, s.mqList, id);
    ByIdFinds(s, s.mqList, id);
    if Creates(s, p, id, flags, priority) {
      NewMqBuilds(s, id, priority);
      if priority + 1 <= |s.freeQueues| {
        WithNewMqKeeps(s, id, priority);
        AttachKeeps(WithNewMq(s, id, priority), p, s.freeMqs[0]);
      }
    } else if found.Some? && s.lastFd[p] + 1 <= MAX_NUM_MQDESCRIPTORS_PER_PROCESS {
      AttachKeeps(s, p, found.value);
    }
  }

  // ---- tear-down

  lemma DelistPlaced(s: Mail, m: MqBlock)
    requires BlocksPlaced(s) && m in s.mqList
    ensures BlocksPlaced(Delist(s, m)) && forall n :: n in Delist(s, m).mqList <==> n in s.mqList && n != m
  {
    var t := Delist(s, m);
    MqsApart(s);
    RemoveBag<MqBlock>(s.mqList, m);
    RemovedIsGone<MqBlock>(s.mqList, m);
    assert MqBag(t) == MqBag(s);
    assert QueueBag(t) == QueueBag(s) && MsgBag(t) == MsgBag(s) && DescBag(t) == DescBag(s);
  }

  lemma DelistCounted(s: Mail, m: MqBlock)
    requires BlocksPlaced(s) && Counted(s) && Ranked(s) && m in s.mqList && s.nums[m] == 0
    ensures Counted(Delist(s, m)) && Ranked(Delist(s, m))
    ensures Queued(s, m) == 0 && s.lost[m] == []
  {
    var t := Delist(s, m);
    QueuedNotNegative(s, m);
    DelistPlaced(s, m);
    var k := RemoveSplits<MqBlock>(s.mqList, m);
    TotalWithout(s.nums, s.mqList, k);
    SameQueues(s, t);
    hide OnePerClass, Queued, BlocksPlaced;
  }

  lemma DelistKeeps(s: Mail, m: MqBlock)
    requires MailInv(s) && m in s.mqList && s.nums[m] == 0 && s.descsOf[m] == []
    ensures MailInv(Delist(s, m)) && Queued(s, m) == 0 && s.lost[m] == []
  {
    var t := Delist(s, m);
    DelistCounted(s, m);
    DelistPlaced(s, m);
    hide Counted, Ranked, InOrder, LengthsBounded, DescsLinked, BlocksPlaced, Queued;
    SameLogs(s, t);
    SameDescs(s, t);
  }

  lemma DropQueuePlaced(s: Mail, m: MqBlock)
    requires BlocksPlaced(s) && s.queuesOf[m] != [] && s.msgsOf[s.queuesOf[m][0]] == []
    ensures BlocksPlaced(DropQueue(s, m))
  {
    var t := DropQueue(s, m);
    var q := s.queuesOf[m][0];
    PopFront<QueueBlock>(s.queuesOf[m]);
    SumLoses<QueueBlock>(s.queuesOf, m, s.queuesOf[m][1..], q);
    assert multiset(t.freeQueues) == multiset{q} + multiset(s.freeQueues);
    assert QueueBag(t) == QueueBag(s);
    assert MqBag(t) == MqBag(s) && MsgBag(t) == MsgBag(s) && DescBag(t) == DescBag(s);
  }

  lemma DropQueueKeeps(s: Mail, m: MqBlock)
    requires MailInv(s) && m in s.unlisted && s.queuesOf[m] != [] && s.msgsOf[s.queuesOf[m][0]] == []
    ensures MailInv(DropQueue(s, m))
  {
    hide Counted, Ranked, InOrder, LengthsBounded, DescsLinked, BlocksPlaced;
    var t := DropQueue(s, m);
    DropQueuePlaced(s, m);
    DropQueueCounted(s, m);
    SameLogs(s, t);
    SameDescs(s, t);
  }

  lemma DropQueueCounted(s: Mail, m: MqBlock)
    requires MailInv(s) && m in s.unlisted && s.queuesOf[m] != []
    ensures Counted(DropQueue(s, m)) && Ranked(DropQueue(s, m))
  {
    hide InOrder, LengthsBounded, DescsLinked, IdsDistinct, BlocksPlaced, Exactly;
    var t := DropQueue(s, m);
    MqsApart(s);
    CountedElsewhere(s, t, m);
    assert forall n :: n in t.mqList ==> OnePerClass(s, n) && OnePerClass(t, n);
  }

  /** The loop frees every queue of an empty message queue, the assertions in Queue_free holding. */
  lemma {:induction false} DropQueuesKeeps(s: Mail, m: MqBlock, i: nat)
    requires MailInv(s) && m in s.unlisted && s.priorities[m] + 1 - i == |s.queuesOf[m]|
    requires forall q :: q in s.queuesOf[m] ==> s.msgsOf[q] == []
    ensures var t := DropQueues(s, m, i);
            && MailInv(t) && t.queuesOf[m] == [] && t.unlisted == s.unlisted && t.mqList == s.mqList
            && t.freeMqs == s.freeMqs && t.lost == s.lost && t.descsOf == s.descsOf && t.msgsOf == s.msgsOf
    decreases s.priorities[m] - i
  {
    hide MailInv;
    if s.queuesOf[m] != [] {
      DropQueueKeeps(s, m);
      DropQueuesKeeps(DropQueue(s, m), m, i + 1);
    }
  }

  lemma FreeMqKeeps(s: Mail, m: MqBlock, unlisted: seq<MqBlock>)
    requires MailInv(s) && s.unlisted == unlisted + [m] && s.queuesOf[m] == [] && s.lost[m] == []
    ensures MailInv(FreeMq(s, m, unlisted))
  {
    var t := FreeMq(s, m, unlisted);
    assert MqBag(t) == MqBag(s);
    SameQueues(s, t);
    hide InOrder, LengthsBounded, DescsLinked, BlocksPlaced, Queued, OnePerClass;
    MovePlaced(s, t);
    SameLogs(s, t);
    SameDescs(s, t);
  }

  /** A message queue in the list has one queue more than its priority. */
  lemma QueueCount(s: Mail, m: MqBlock)
    requires MailInv(s) && m in s.mqList
    ensures |s.queuesOf[m]| == s.priorities[m] + 1
  {
    assert OnePerClass(s, m);
    ExactlySize(multiset(Ranks(s.classes, s.queuesOf[m])), s.priorities[m] + 1);
  }

  lemma UnlinkKeeps(s: Mail, id: int)
    requires MailInv(s)
    ensures MailInv(Unlink(s, id).0)
  {
    hide MailInv;
    var m := ById(s, s.mqList, id);
    ByIdFinds(s, s.mqList, id);
    if m.Some? && s.nums[m.value] == 0 && s.descsOf[m.value] == [] {
      DelistKeeps(s, m.value);
      QueueCount(s, m.value);
      QueuedNotNegative(s, m.value);
      DropQueuesKeeps(Delist(s, m.value), m.value, 0);
      FreeMqKeeps(DropQueues(Delist(s, m.value), m.value, 0), m.value, s.unlisted);
    }
  }

  // ---- the other calls

  lemma WriteKeeps(s: Mail, p: Block, fd: int, text: int, length: int, priority: int)
    requires MailInv(s)
    ensures MailInv(Write(s, p, fd, text, length, priority).0)
  {
    hide MailInv;
    var d := Lookup(s, p, fd);
    if d.Some? {
      LookupLinked(s, p, fd);
      var m := s.descs[d.value].mq;
      var rank := Normalise(priority, s.priorities[m]);
      ByClassFinds(s, s.queuesOf[m], rank);
      var q := ByClass(s, s.queuesOf[m], rank);
      if q.Some? && s.freeMsgs != [] && s.nums[m] < MAX_NUM_MESSAGES_PER_MQ && 0 <= length <= MAX_MESSAGE_LENGTH {
        PutKeeps(s, m, q.value, Message(text, length));
      }
    }
  }

  lemma ReadKeeps(s: Mail, p: Block, fd: int, bufSize: int)
    requires MailInv(s)
    ensures MailInv(Read(s, p, fd, bufSize).0)
  {
    hide MailInv;
    var d := Lookup(s, p, fd);
    if d.Some? {
      LookupLinked(s, p, fd);
      ReadFromKeeps(s, s.descs[d.value].mq, 0, bufSize);
    }
  }

  lemma CloseKeeps(s: Mail, p: Block, fd: int)
    requires MailInv(s)
    ensures MailInv(Close(s, p, fd).0)
  {
    hide MailInv;
    var d := Lookup(s, p, fd);
    if d.Some? {
      LookupLinked(s, p, fd);
      DetachKeeps(s, p, d.value);
    }
  }

  lemma NewProcessKeeps(s: Mail, p: Block)
    requires MailInv(s)
    ensures MailInv(NewProcess(s, p))
  {
    var t := NewProcess(s, p);
    SameQueues(s, t);
    hide InOrder, LengthsBounded, BlocksPlaced, Queued, OnePerClass;
    assert MqBag(t) == MqBag(s);
    MovePlaced(s, t);
    SameLogs(s, t);
  }
}
