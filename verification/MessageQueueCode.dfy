/** The message queue handlers as the source writes them, proved to make of the state exactly what the functions
    of MessageQueues say. On the way every detached item is shown to be on its list and every freed block to be
    in use; the assertions of the free functions hold, and no loop runs into an empty list. */
module MessageQueueCode {
  import opened Bags
  import opened Timers
  import opened Processes
  import opened MessageQueues
  import opened MessageQueueLaws
  import opened MessageQueueSteps
  import opened MessageQueueReads
  import opened MessageQueueRuns

  /** One turn of the loop over the classes. */
  lemma ReadFromTurn(s: Mail, m: MqBlock, i: nat, bufSize: int)
    requires MailInv(s) && m in s.mqList && i < s.priorities[m]
    ensures var q := QueueAt(s, m, i);
            ReadFrom(s, m, i, bufSize) ==
            if s.msgsOf[q] == [] then ReadFrom(s, m, i + 1, bufSize)
            else if bufSize >= s.messages[s.msgsOf[q][0]].length
            then (Get(s, m, q), Received(s.messages[s.msgsOf[q][0]].length, s.messages[s.msgsOf[q][0]], i))
            else ReadFrom(Drop(s, m, q), m, i + 1, bufSize)
  {
    AtClass(s, m, i);
    hide MailInv, QueueAt;
  }

  lemma ReadFromEnds(s: Mail, m: MqBlock, i: nat, bufSize: int)
    requires i >= s.priorities[m]
    ensures ReadFrom(s, m, i, bufSize) == (s, Returned(0))
  {
  }

  class Mailroom {
    /** messageQueues_list, the pools and their blocks, and what PCBs hold about message queues. */
    var mail: Mail

    /** MessageQueue_init, Queue_init, Message_init and MQDescriptor_init, given the free stacks they make. */
    constructor (mqs: seq<MqBlock>, queues: seq<QueueBlock>, messages: seq<MsgBlock>, descs: seq<Block>)
      requires AllOf(mqs, 0, MAX_NUM_MQS) && AllOf(queues, 0, MAX_NUM_QUEUES)
      requires AllOf(messages, 0, MAX_NUM_MESSAGES) && AllOf(descs, 0, MAX_NUM_PROCESSES)
      ensures Boot(mail)
    {
      var perMq, perQueue := seq(MAX_NUM_MQS, _ => 0), seq(MAX_NUM_QUEUES, _ => 0);
      mail := Mail([], mqs, [], perMq, perMq, perMq,
                   seq(MAX_NUM_MQS, _ => []), seq(MAX_NUM_MQS, _ => []), seq(MAX_NUM_MQS, _ => []),
                   queues, perQueue,
                   seq(MAX_NUM_QUEUES, _ => []), seq(MAX_NUM_QUEUES, _ => []), seq(MAX_NUM_QUEUES, _ => []),
                   messages, seq(MAX_NUM_MESSAGES, _ => Message(0, 0)),
                   seq(MAX_NUM_PROCESSES, _ => MqDesc(0, 0, 0)), descs,
                   seq(MAX_NUM_PROCESSES, _ => []), seq(MAX_NUM_PROCESSES, _ => 0));
    }

    // ---- the lookups

    /** MQDescriptorList_byFd, after the check of fd. */
    method FindDescriptor(p: Block, fd: int) returns (d: Option<Block>)
      ensures d == Lookup(mail, p, fd)
    {
      if fd < 0 || fd > MAX_NUM_MQDESCRIPTORS_PER_PROCESS {
        return None;
      }
      var l, aux := mail.owned[p], 0;
      while aux < |l|
        invariant 0 <= aux <= |l|
        invariant ByFd(mail, l, fd) == ByFd(mail, l[aux..], fd)
      {
        if mail.descs[l[aux]].fd == fd {
          return Some(l[aux]);
        }
        aux := aux + 1;
      }
      return None;
    }

    /** MessageQueueList_byId */
    method FindMq(id: int) returns (m: Option<MqBlock>)
      ensures m == ById(mail, mail.mqList, id)
    {
      var l, aux := mail.mqList, 0;
      while aux < |l|
        invariant 0 <= aux <= |l|
        invariant ById(mail, l, id) == ById(mail, l[aux..], id)
      {
        if mail.ids[l[aux]] == id {
          return Some(l[aux]);
        }
        aux := aux + 1;
      }
      return None;
    }

    /** QueueList_byPriority */
    method FindQueue(m: MqBlock, rank: int) returns (q: Option<QueueBlock>)
      ensures q == ByClass(mail, mail.queuesOf[m], rank)
    {
      var l, aux := mail.queuesOf[m], 0;
      while aux < |l|
        invariant 0 <= aux <= |l|
        invariant ByClass(mail, l, rank) == ByClass(mail, l[aux..], rank)
      {
        if mail.classes[l[aux]] == rank {
          return Some(l[aux]);
        }
        aux := aux + 1;
      }
      return None;
    }

    // ---- disastrOS_mqwrite.c

    method InternalMqWrite(p: Block, fd: int, text: int, length: int, priority: int) returns (r: Reply)
      modifies `mail
      ensures (mail, r) == Write(old(mail), p, fd, text, length, priority)
    {
      if text == 0 || length < 0 || length > MAX_MESSAGE_LENGTH {
        return Returned(EMQWRITE);
      }
      var d := FindDescriptor(p, fd);
      if d.None? {
        return Returned(EMQWRITE);
      }
      var m := mail.descs[d.value].mq;
      if mail.nums[m] + 1 > MAX_NUM_MESSAGES_PER_MQ {
        return Returned(0);
      }
      var rank := priority;
      if priority < 0 || priority > mail.priorities[m] - 1 {
        rank := mail.priorities[m];
      }
      var q := FindQueue(m, rank);
      if q.None? || mail.freeMsgs == [] {
        return Returned(EMQWRITE);
      }
      var b := mail.freeMsgs[0];
      mail := mail.(freeMsgs := mail.freeMsgs[1..]);
      mail := mail.(messages := mail.messages[b := Message(text, length)]);
      mail := mail.(msgsOf := mail.msgsOf[q.value := mail.msgsOf[q.value] + [b]]);
      mail := mail.(nums := mail.nums[m := mail.nums[m] + 1]);
      mail := mail.(written := mail.written[q.value := mail.written[q.value] + [Message(text, length)]]);
      return Returned(rank);
    }

    // ---- disastrOS_mqread.c

    method InternalMqRead(p: Block, fd: int, bufSize: int) returns (r: Reply)
      requires MailInv(mail)
      modifies `mail
      ensures (mail, r) == Read(old(mail), p, fd, bufSize)
    {
      hide MailInv, ReadFrom, QueueAt;
      var d := FindDescriptor(p, fd);
      if d.None? {
        return Returned(EMQREAD);
      }
      var m := mail.descs[d.value].mq;
      if mail.nums[m] == 0 {
        return Returned(0);
      }
      LookupLinked(mail, p, fd);
      var i := 0;
      while i < mail.priorities[m]
        invariant 0 <= i && MailInv(mail) && m in mail.mqList && mail.priorities == old(mail).priorities
        invariant ReadFrom(old(mail), m, 0, bufSize) == ReadFrom(mail, m, i, bufSize)
        decreases mail.priorities[m] - i
      {
        var q := FindQueue(m, i);
        AtClass(mail, m, i);
        ReadFromTurn(mail, m, i, bufSize);
        if mail.msgsOf[q.value] != [] {
          ghost var s := mail;
          var b := mail.msgsOf[q.value][0];
          MessageInUse(mail, q.value);
          mail := mail.(msgsOf := mail.msgsOf[q.value := mail.msgsOf[q.value][1..]]);
          if bufSize >= mail.messages[b].length {
            mail := mail.(nums := mail.nums[m := mail.nums[m] - 1]);
            mail := mail.(freeMsgs := GiveBlock(mail.freeMsgs, b));
            mail := mail.(taken := mail.taken[q.value := mail.taken[q.value] + [Taken(mail.messages[b], true)]]);
            return Received(mail.messages[b].length, mail.messages[b], i);
          }
          mail := mail.(lost := mail.lost[m := mail.lost[m] + [b]]);
          mail := mail.(taken := mail.taken[q.value := mail.taken[q.value] + [Taken(mail.messages[b], false)]]);
          DropKeeps(s, m, q.value);
        }
        i := i + 1;
      }
      ReadFromEnds(mail, m, i, bufSize);
      return Returned(0);
    }

    // ---- disastrOS_mqopen.c

    method InternalMqOpen(p: Block, id: int, flags: int, priority: int) returns (r: Reply)
      requires Creates(mail, p, id, flags, priority) ==> mail.mqList == []
      modifies `mail
      ensures (mail, r) == Open(old(mail), p, id, flags, priority)
    {
      if mail.lastFd[p] + 1 > MAX_NUM_MQDESCRIPTORS_PER_PROCESS {
        return Returned(EMQOPEN);
      }
      if id < 0 {
        return Returned(EMQOPEN);
      }
      var m := FindMq(id);
      if CreateSet(flags) {
        if m.Some? && ExclSet(flags) {
          return Returned(EMQOPEN);
        } else if m.None? {
          if |mail.mqList| + 1 > MAX_NUM_MQS {
            return Returned(EMQOPEN);
          }
          if priority < 0 || priority > MAX_NUM_QUEUES {
            return Returned(EMQOPEN);
          }
          if mail.freeMqs == [] {
            return Returned(EMQOPEN);
          }
          m := Some(mail.freeMqs[0]);
          var built := BuildMq(id, priority);
          if !built {
            return Returned(EMQOPEN);
          }
        }
      }
      if m.None? {
        return Returned(EMQOPEN);
      }
      r := AttachDescriptor(p, m.value);
    }

    /** The creation of a message queue, false when the queues do not suffice. */
    method BuildMq(id: int, priority: nat) returns (built: bool)
      requires mail.freeMqs != [] && mail.mqList == []
      modifies `mail
      ensures built == (priority + 1 <= |old(mail).freeQueues|)
      ensures mail == if built then WithNewMq(old(mail), id, priority)
                      else AddQueues(NewMq(old(mail), id, priority), old(mail).freeMqs[0], 0, priority)
    {
      ghost var s := mail;
      var m, unlisted := mail.freeMqs[0], mail.unlisted;
      mail := NewMq(mail, id, priority);
      var i := 0;
      while i <= priority
        invariant 0 <= i <= priority + 1 && |mail.freeQueues| == |s.freeQueues| - i
        invariant AddQueues(NewMq(s, id, priority), m, 0, priority) == AddQueues(mail, m, i, priority)
      {
        if mail.freeQueues == [] {
          return false;
        }
        var q := mail.freeQueues[0];
        mail := mail.(freeQueues := mail.freeQueues[1..]);
        mail := mail.(classes := mail.classes[q := i], msgsOf := mail.msgsOf[q := []],
                      written := mail.written[q := []], taken := mail.taken[q := []]);
        mail := mail.(queuesOf := mail.queuesOf[m := [q] + mail.queuesOf[m]]);
        i := i + 1;
      }
      mail := EnlistMq(mail, m, unlisted);
      return true;
    }

    method AttachDescriptor(p: Block, m: MqBlock) returns (r: Reply)
      modifies `mail
      ensures (mail, r) == Attach(old(mail), p, m)
    {
      if mail.freeDescs == [] {
        return Returned(EMQOPEN);
      }
      var d := mail.freeDescs[0];
      mail := mail.(freeDescs := mail.freeDescs[1..]);
      mail := mail.(descs := mail.descs[d := MqDesc(p, m, mail.lastFd[p])]);
      mail := mail.(owned := mail.owned[p := mail.owned[p] + [d]]);
      mail := mail.(descsOf := mail.descsOf[m := mail.descsOf[m] + [d]]);
      mail := mail.(lastFd := mail.lastFd[p := mail.lastFd[p] + 1]);
      return Returned(mail.lastFd[p] - 1);
    }

    // ---- disastrOS_mqclose.c, disastrOS_mqunlink.c

    method InternalMqClose(p: Block, fd: int) returns (r: Reply)
      requires MailInv(mail)
      modifies `mail
      ensures (mail, r) == Close(old(mail), p, fd)
    {
      hide MailInv;
      var d := FindDescriptor(p, fd);
      if d.None? {
        return Returned(EMQCLOSE);
      }
      LookupLinked(mail, p, fd);
      DescInUse(mail, d.value);
      var m := mail.descs[d.value].mq;
      mail := mail.(owned := mail.owned[p := DetachFrom(mail.owned[p], d.value)]);
      mail := mail.(descsOf := mail.descsOf[m := DetachFrom(mail.descsOf[m], d.value)]);
      mail := mail.(freeDescs := GiveBlock(mail.freeDescs, d.value));
      mail := mail.(lastFd := mail.lastFd[p := mail.lastFd[p] - 1]);
      return Returned(0);
    }

    method InternalMqUnlink(id: int) returns (r: Reply)
      requires MailInv(mail)
      modifies `mail
      ensures (mail, r) == Unlink(old(mail), id)
    {
      hide MailInv;
      ghost var s := mail;
      var unlisted := mail.unlisted;
      var m := FindMq(id);
      ByIdFinds(mail, mail.mqList, id);
      if m.None? {
        return Returned(EMQUNLINK);
      }
      if mail.nums[m.value] != 0 {
        return Returned(EMQUNLINK);
      }
      if mail.descsOf[m.value] != [] {
        return Returned(EMQUNLINK);
      }
      DelistKeeps(mail, m.value);
      QueueCount(mail, m.value);
      QueuedNotNegative(mail, m.value);
      mail := mail.(mqList := DetachFrom(mail.mqList, m.value), unlisted := mail.unlisted + [m.value]);
      var i := 0;
      while i <= mail.priorities[m.value]
        invariant 0 <= i && MailInv(mail) && m.value in mail.unlisted && mail.priorities == s.priorities
        invariant mail.descsOf == s.descsOf
        invariant |mail.queuesOf[m.value]| == mail.priorities[m.value] + 1 - i
        invariant forall q :: q in mail.queuesOf[m.value] ==> mail.msgsOf[q] == []
        invariant DropQueues(Delist(s, m.value), m.value, 0) == DropQueues(mail, m.value, i)
      {
        ghost var before := mail;
        var q := mail.queuesOf[m.value][0];
        QueueInUse(mail, m.value, q);
        DropQueueKeeps(mail, m.value);
        mail := mail.(queuesOf := mail.queuesOf[m.value := mail.queuesOf[m.value][1..]]);
        if mail.msgsOf[q] == [] {
          mail := mail.(freeQueues := GiveBlock(mail.freeQueues, q));
        }
        assert mail == DropQueue(before, m.value);
        i := i + 1;
      }
      assert mail.descsOf[m.value] == [];
      UnlistedInUse(mail, m.value);
      mail := mail.(freeMqs := GiveBlock(mail.freeMqs, m.value), unlisted := unlisted);
      return Returned(0);
    }

    /** PCB_alloc's part. */
    method ResetProcess(p: Block)
      modifies `mail
      ensures mail == NewProcess(old(mail), p)
    {
      mail := mail.(lastFd := mail.lastFd[p := 0]);
      mail := mail.(owned := mail.owned[p := []]);
    }

    // ---- whole runs

    method Execute(step: MailStep)
      requires MailInv(mail) && Permitted(mail, step)
      modifies `mail
      ensures mail == After(old(mail), step) && MailInv(mail)
    {
      hide MailInv;
      StepKeeps(mail, step);
      match step
      case OpenStep(p, id, flags, priority) => var _ := InternalMqOpen(p, id, flags, priority);
      case WriteStep(p, fd, text, length, priority) => var _ := InternalMqWrite(p, fd, text, length, priority);
      case ReadStep(p, fd, bufSize) => var _ := InternalMqRead(p, fd, bufSize);
      case CloseStep(p, fd) => var _ := InternalMqClose(p, fd);
      case UnlinkStep(id) => var _ := InternalMqUnlink(id);
      case NewProcessStep(p) => ResetProcess(p);
    }

    method ExecuteAll(steps: seq<MailStep>)
      requires MailInv(mail) && Legal(mail, steps)
      modifies `mail
      ensures mail == Run(old(mail), steps) && MailInv(mail)
    {
      hide MailInv;
      hide After;
      hide Permitted;
      var i := 0;
      while i < |steps|
        invariant 0 <= i <= |steps| && MailInv(mail) && Legal(mail, steps[i..])
        invariant Run(old(mail), steps) == Run(mail, steps[i..])
      {
        assert steps[i..][1..] == steps[i + 1..];
        Execute(steps[i]);
        i := i + 1;
      }
    }
  }

  // ---- blocks in use, as the free functions need them

  lemma MessageInUse(s: Mail, q: QueueBlock)
    requires MailInv(s) && s.msgsOf[q] != []
    ensures s.msgsOf[q][0] !in s.freeMsgs
  {
    MessagesApart(s, q);
  }

  lemma DescInUse(s: Mail, d: Block)
    requires MailInv(s) && d in s.descsOf[s.descs[d].mq]
    ensures d !in s.freeDescs
  {
    DescsApart(s, s.descs[d].mq);
  }

  lemma QueueInUse(s: Mail, m: MqBlock, q: QueueBlock)
    requires MailInv(s) && q in s.queuesOf[m]
    ensures q !in s.freeQueues
  {
    QueuesApart(s, m);
  }

  lemma UnlistedInUse(s: Mail, m: MqBlock)
    requires MailInv(s) && m in s.unlisted
    ensures m !in s.freeMqs
  {
    MqsApart(s);
  }
}
