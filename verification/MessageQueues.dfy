/** Message queues: the state behind disastrOS_mq.c and what each of the five handlers makes of it.
    A message queue has one queue per class 0..priority; class 0 is the most urgent. */
module MessageQueues {
  import opened Bags
  import opened Timers
  import opened Processes

  const MAX_NUM_MQS := 16
  const MAX_NUM_QUEUES := 64
  const MAX_NUM_MESSAGES := 128
  const MAX_NUM_MESSAGES_PER_MQ := 128
  const MAX_MESSAGE_LENGTH := 32
  const MAX_NUM_MQDESCRIPTORS_PER_PROCESS := 16

  const EMQOPEN := -18
  const EMQCLOSE := -19
  const EMQREAD := -20
  const EMQWRITE := -21
  const EMQUNLINK := -22

  type MqBlock = x: int | 0 <= x < MAX_NUM_MQS
  type QueueBlock = x: int | 0 <= x < MAX_NUM_QUEUES
  type MsgBlock = x: int | 0 <= x < MAX_NUM_MESSAGES

  /** The text is a pointer to the writer's buffer, null being 0; only the pointer and the length are kept. */
  datatype Message = Message(text: int, length: int)
  datatype MqDesc = MqDesc(owner: Block, mq: MqBlock, fd: int)

  /** A message taken out of a queue: handed to a reader, or dropped because it did not fit the buffer. */
  datatype Taken = Taken(message: Message, delivered: bool)

  type IntPerMq = t: seq<int> | |t| == MAX_NUM_MQS witness seq(MAX_NUM_MQS, _ => 0)
  type QueuesPerMq = t: seq<seq<QueueBlock>> | |t| == MAX_NUM_MQS witness seq(MAX_NUM_MQS, _ => [])
  type DescsPerMq = t: seq<seq<Block>> | |t| == MAX_NUM_MQS witness seq(MAX_NUM_MQS, _ => [])
  type LostPerMq = t: seq<seq<MsgBlock>> | |t| == MAX_NUM_MQS witness seq(MAX_NUM_MQS, _ => [])
  type IntPerQueue = t: seq<int> | |t| == MAX_NUM_QUEUES witness seq(MAX_NUM_QUEUES, _ => 0)
  type MsgsPerQueue = t: seq<seq<MsgBlock>> | |t| == MAX_NUM_QUEUES witness seq(MAX_NUM_QUEUES, _ => [])
  type WrittenPerQueue = t: seq<seq<Message>> | |t| == MAX_NUM_QUEUES witness seq(MAX_NUM_QUEUES, _ => [])
  type TakenPerQueue = t: seq<seq<Taken>> | |t| == MAX_NUM_QUEUES witness seq(MAX_NUM_QUEUES, _ => [])
  type MessageTable = t: seq<Message> | |t| == MAX_NUM_MESSAGES witness seq(MAX_NUM_MESSAGES, _ => Message(0, 0))
  type MqDescTable = t: seq<MqDesc> | |t| == MAX_NUM_PROCESSES witness seq(MAX_NUM_PROCESSES, _ => MqDesc(0, 0, 0))
  type FdTable = t: seq<int> | |t| == MAX_NUM_PROCESSES witness seq(MAX_NUM_PROCESSES, _ => 0)

  /** ids, priorities, nums, queuesOf, descsOf and lost are indexed by message queue block, classes, msgsOf,
      written and taken by queue block, messages by message block, descs by descriptor block, owned and
      lastFd by PCB block. unlisted holds the message queue blocks in use that are not in messageQueues_list:
      half-built, half torn down, or left over by a creation that failed. lost, written and taken record
      history: the message blocks dropped by reads with too small a buffer, and what went into and came out
      of each queue since its creation. */
  datatype Mail = Mail(
    mqList: seq<MqBlock>, freeMqs: seq<MqBlock>, unlisted: seq<MqBlock>,
    ids: IntPerMq, priorities: IntPerMq, nums: IntPerMq,
    queuesOf: QueuesPerMq, descsOf: DescsPerMq, lost: LostPerMq,
    freeQueues: seq<QueueBlock>, classes: IntPerQueue, msgsOf: MsgsPerQueue,
    written: WrittenPerQueue, taken: TakenPerQueue,
    freeMsgs: seq<MsgBlock>, messages: MessageTable,
    descs: MqDescTable, freeDescs: seq<Block>, owned: ListTable, lastFd: FdTable)

  /** What a call returns; a successful read also says which message it got and from which class. */
  datatype Reply = Returned(ret: int) | Received(ret: int, message: Message, rank: int)

  /** MQDescriptorList_byFd, MessageQueueList_byId, QueueList_byPriority: the first that matches. */
  function ByFd(s: Mail, ds: seq<Block>, fd: int): Option<Block> {
    if ds == [] then None
    else if s.descs[ds[0]].fd == fd then Some(ds[0])
    else ByFd(s, ds[1..], fd)
  }

  function ById(s: Mail, ms: seq<MqBlock>, id: int): Option<MqBlock> {
    if ms == [] then None
    else if s.ids[ms[0]] == id then Some(ms[0])
    else ById(s, ms[1..], id)
  }

  function ByClass(s: Mail, qs: seq<QueueBlock>, rank: int): Option<QueueBlock> {
    if qs == [] then None
    else if s.classes[qs[0]] == rank then Some(qs[0])
    else ByClass(s, qs[1..], rank)
  }

  /** The descriptor process p means by fd; the bound check lets 16 through. */
  function Lookup(s: Mail, p: Block, fd: int): Option<Block> {
    if fd < 0 || fd > MAX_NUM_MQDESCRIPTORS_PER_PROCESS then None else ByFd(s, s.owned[p], fd)
  }

  // ---- mqWrite

  /** Priorities out of range go to the last class, which is beyond those mqRead scans. */
  function Normalise(priority: int, classes: int): int {
    if priority < 0 || priority > classes - 1 then classes else priority
  }

  function Write(s: Mail, p: Block, fd: int, text: int, length: int, priority: int): (Mail, Reply) {
    var d := Lookup(s, p, fd);
    if text == 0 || length < 0 || length > MAX_MESSAGE_LENGTH || d.None? then (s, Returned(EMQWRITE))
    else
      var m := s.descs[d.value].mq;
      if s.nums[m] + 1 > MAX_NUM_MESSAGES_PER_MQ then (s, Returned(0))
      else
        var rank := Normalise(priority, s.priorities[m]);
        var q := ByClass(s, s.queuesOf[m], rank);
        if q.None? || s.freeMsgs == [] then (s, Returned(EMQWRITE))
        else (Put(s, m, q.value, Message(text, length)), Returned(rank))
  }

  function Put(s: Mail, m: MqBlock, q: QueueBlock, message: Message): Mail
    requires s.freeMsgs != []
  {
    var b := s.freeMsgs[0];
    s.(freeMsgs := s.freeMsgs[1..], messages := s.messages[b := message],
       msgsOf := s.msgsOf[q := s.msgsOf[q] + [b]], nums := s.nums[m := s.nums[m] + 1],
       written := s.written[q := s.written[q] + [message]])
  }

  // ---- mqRead

  function Read(s: Mail, p: Block, fd: int, bufSize: int): (Mail, Reply) {
    var d := Lookup(s, p, fd);
    if d.None? then (s, Returned(EMQREAD))
    else
      var m := s.descs[d.value].mq;
      if s.nums[m] == 0 then (s, Returned(0)) else ReadFrom(s, m, 0, bufSize)
  }

  /** The loop over the classes, from class i on: the head of every non-empty queue is detached, and the
      first that fits the buffer is returned; those detached before are dropped. */
  function ReadFrom(s: Mail, m: MqBlock, i: nat, bufSize: int): (Mail, Reply)
    decreases s.priorities[m] - i
  {
    if i >= s.priorities[m] then (s, Returned(0))
    else
      var q := ByClass(s, s.queuesOf[m], i);
      if q.None? then (s, Returned(EMQREAD))
      else if s.msgsOf[q.value] == [] then ReadFrom(s, m, i + 1, bufSize)
      else
        var message := s.messages[s.msgsOf[q.value][0]];
        if bufSize >= message.length then (Get(s, m, q.value), Received(message.length, message, i))
        else ReadFrom(Drop(s, m, q.value), m, i + 1, bufSize)
  }

  function Get(s: Mail, m: MqBlock, q: QueueBlock): Mail
    requires s.msgsOf[q] != []
  {
    var b := s.msgsOf[q][0];
    s.(msgsOf := s.msgsOf[q := s.msgsOf[q][1..]], nums := s.nums[m := s.nums[m] - 1], freeMsgs := [b] + s.freeMsgs,
       taken := s.taken[q := s.taken[q] + [Taken(s.messages[b], true)]])
  }

  function Drop(s: Mail, m: MqBlock, q: QueueBlock): Mail
    requires s.msgsOf[q] != []
  {
    var b := s.msgsOf[q][0];
    s.(msgsOf := s.msgsOf[q := s.msgsOf[q][1..]], lost := s.lost[m := s.lost[m] + [b]],
       taken := s.taken[q := s.taken[q] + [Taken(s.messages[b], false)]])
  }

  // ---- mqOpen

  /** This call creates a message queue, rather than opening or failing early. */
  predicate Creates(s: Mail, p: Block, id: int, flags: int, priority: int) {
    && s.lastFd[p] + 1 <= MAX_NUM_MQDESCRIPTORS_PER_PROCESS && id >= 0
    && CreateSet(flags) && ById(s, s.mqList, id).None?
    && |s.mqList| + 1 <= MAX_NUM_MQS && 0 <= priority <= MAX_NUM_QUEUES && s.freeMqs != []
  }

  /** A creation needs messageQueues_list empty, or the lists of queues come out malformed. */
  function Open(s: Mail, p: Block, id: int, flags: int, priority: int): (Mail, Reply)
    requires Creates(s, p, id, flags, priority) ==> s.mqList == []
  {
    var found := ById(s, s.mqList, id);
    if s.lastFd[p] + 1 > MAX_NUM_MQDESCRIPTORS_PER_PROCESS || id < 0 then (s, Returned(EMQOPEN))
    else if CreateSet(flags) && found.Some? && ExclSet(flags) then (s, Returned(EMQOPEN))
    else if Creates(s, p, id, flags, priority) then
      var m := s.freeMqs[0];
      var c := AddQueues(NewMq(s, id, priority), m, 0, priority);
      if priority + 1 > |s.freeQueues| then (c, Returned(EMQOPEN))
      else Attach(EnlistMq(c, m, s.unlisted), p, m)
    else if found.None? then (s, Returned(EMQOPEN))
    else Attach(s, p, found.value)
  }

  function EnlistMq(s: Mail, m: MqBlock, unlisted: seq<MqBlock>): Mail {
    s.(mqList := s.mqList + [m], unlisted := unlisted)
  }

  /** MessageQueue_alloc */
  function NewMq(s: Mail, id: int, priority: int): Mail
    requires s.freeMqs != []
  {
    var m := s.freeMqs[0];
    s.(freeMqs := s.freeMqs[1..], unlisted := s.unlisted + [m],
       ids := s.ids[m := id], priorities := s.priorities[m := priority], nums := s.nums[m := 0],
       queuesOf := s.queuesOf[m := []], descsOf := s.descsOf[m := []], lost := s.lost[m := []])
  }

  /** The creation loop from class i on, until the pool is empty: each queue goes in front of the others. */
  function AddQueues(s: Mail, m: MqBlock, i: nat, priority: int): (t: Mail)
    decreases priority - i
  {
    if i > priority || s.freeQueues == [] then s
    else AddQueues(AddQueue(s, m, i), m, i + 1, priority)
  }

  /** Queue_alloc, and the insertion. */
  function AddQueue(s: Mail, m: MqBlock, rank: int): Mail
    requires s.freeQueues != []
  {
    var q := s.freeQueues[0];
    s.(freeQueues := s.freeQueues[1..], classes := s.classes[q := rank], msgsOf := s.msgsOf[q := []],
       written := s.written[q := []], taken := s.taken[q := []],
       queuesOf := s.queuesOf[m := [q] + s.queuesOf[m]])
  }

  /** The descriptor pair; the two pools move in step, so one block index stands for both. */
  function Attach(s: Mail, p: Block, m: MqBlock): (Mail, Reply) {
    if s.freeDescs == [] then (s, Returned(EMQOPEN))
    else
      var d, fd := s.freeDescs[0], s.lastFd[p];
      (s.(freeDescs := s.freeDescs[1..], descs := s.descs[d := MqDesc(p, m, fd)],
          owned := s.owned[p := s.owned[p] + [d]], descsOf := s.descsOf[m := s.descsOf[m] + [d]],
          lastFd := s.lastFd[p := fd + 1]),
       Returned(fd))
  }

  // ---- mqClose, mqUnlink, and PCB_alloc's part

  function Close(s: Mail, p: Block, fd: int): (Mail, Reply) {
    var d := Lookup(s, p, fd);
    if d.None? then (s, Returned(EMQCLOSE)) else (Detach(s, p, d.value), Returned(0))
  }

  function Detach(s: Mail, p: Block, d: Block): Mail {
    var m := s.descs[d].mq;
    s.(owned := s.owned[p := Remove(s.owned[p], d)], descsOf := s.descsOf[m := Remove(s.descsOf[m], d)],
       freeDescs := [d] + s.freeDescs, lastFd := s.lastFd[p := s.lastFd[p] - 1])
  }

  function Unlink(s: Mail, id: int): (Mail, Reply) {
    var m := ById(s, s.mqList, id);
    if m.None? then (s, Returned(EMQUNLINK))
    else if s.nums[m.value] != 0 || s.descsOf[m.value] != [] then (s, Returned(EMQUNLINK))
    else
      (FreeMq(DropQueues(Delist(s, m.value), m.value, 0), m.value, s.unlisted), Returned(0))
  }

  function Delist(s: Mail, m: MqBlock): Mail {
    s.(mqList := Remove(s.mqList, m), unlisted := s.unlisted + [m])
  }

  /** MessageQueue_free */
  function FreeMq(s: Mail, m: MqBlock, unlisted: seq<MqBlock>): Mail {
    s.(freeMqs := [m] + s.freeMqs, unlisted := unlisted)
  }

  /** The tear-down loop from turn i on: the first queue is detached, and freed if it is empty. */
  function DropQueues(s: Mail, m: MqBlock, i: nat): Mail
    decreases s.priorities[m] - i
  {
    if i > s.priorities[m] || s.queuesOf[m] == [] then s
    else DropQueues(DropQueue(s, m), m, i + 1)
  }

  function DropQueue(s: Mail, m: MqBlock): Mail
    requires s.queuesOf[m] != []
  {
    var q := s.queuesOf[m][0];
    s.(queuesOf := s.queuesOf[m := s.queuesOf[m][1..]],
       freeQueues := if s.msgsOf[q] == [] then [q] + s.freeQueues else s.freeQueues)
  }

  /** PCB_alloc starts a process without message queue descriptors, whatever the block's last owner left open. */
  function NewProcess(s: Mail, p: Block): Mail {
    s.(owned := s.owned[p := []], lastFd := s.lastFd[p := 0])
  }
}
