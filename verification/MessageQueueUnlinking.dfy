/** Which message queues some sequence of calls can unlink, whatever has been done to them before. */
module MessageQueueUnlinking {
  import opened Bags
  import opened Timers
  import opened Processes
  import opened MessageQueues
  import opened MessageQueueLaws
  import opened MessageQueueSteps
  import opened MessageQueueReads
  import opened MessageQueueRuns
  import opened MessageQueueOpening
  import opened MessageQueueDrains
  import opened MessageQueueOrphans

  // ---- ids and fds that a call can name

  /** mqOpen refuses negative ids, and the descriptor lookup fds out of 0..16. */
  ghost predicate Nameable(s: Mail) {
    && (forall m :: m in s.mqList ==> s.ids[m] >= 0)
    && (forall p: Block, d :: d in s.owned[p] ==> 0 <= s.descs[d].fd < MAX_NUM_MQDESCRIPTORS_PER_PROCESS)
  }

  lemma AttachNameable(s: Mail, p: Block, m: MqBlock)
    requires Nameable(s) && 0 <= s.lastFd[p] < MAX_NUM_MQDESCRIPTORS_PER_PROCESS
    requires forall q: Block, e :: e in s.owned[q] ==> e !in s.freeDescs
    ensures Nameable(Attach(s, p, m).0)
  {
    if s.freeDescs != [] {
      var t := Attach(s, p, m).0;
      assert forall q: Block, d :: d in t.owned[q] ==> d in s.owned[q] || d == s.freeDescs[0];
    }
  }

  lemma NoneOwnedFree(s: Mail)
    requires MailInv(s)
    ensures forall q: Block, e :: e in s.owned[q] ==> e !in s.freeDescs
    ensures forall q: Block :: 0 <= s.lastFd[q]
  {
    forall q: Block
      ensures forall e :: e in s.owned[q] ==> e !in s.freeDescs
      ensures 0 <= s.lastFd[q]
    {
      OwnedNotFree(s, q);
      OwnedListed(s, q);
    }
  }

  lemma OpenNameable(s: Mail, p: Block, id: int, flags: int, priority: int)
    requires MailInv(s) && (Creates(s, p, id, flags, priority) ==> s.mqList == []) && Nameable(s)
    ensures Nameable(Open(s, p, id, flags, priority).0)
  {
    NoneOwnedFree(s);
    hide MailInv, Attach, AddQueues, NewMq;
    if Creates(s, p, id, flags, priority) {
      CreationNameable(s, p, id, flags, priority);
      AttachNameable(EnlistMq(AddQueues(NewMq(s, id, priority), s.freeMqs[0], 0, priority), s.freeMqs[0], s.unlisted),
                     p, s.freeMqs[0]);
    } else if s.lastFd[p] + 1 <= MAX_NUM_MQDESCRIPTORS_PER_PROCESS && ById(s, s.mqList, id).Some? {
      AttachNameable(s, p, ById(s, s.mqList, id).value);
    }
  }

  lemma CreationNameable(s: Mail, p: Block, id: int, flags: int, priority: int)
    requires MailInv(s) && Creates(s, p, id, flags, priority) && s.mqList == [] && Nameable(s)
    ensures var c := AddQueues(NewMq(s, id, priority), s.freeMqs[0], 0, priority);
            && Nameable(c) && Nameable(EnlistMq(c, s.freeMqs[0], s.unlisted))
            && c.lastFd == s.lastFd && c.owned == s.owned && c.freeDescs == s.freeDescs
  {
    hide MailInv, AddQueues, Queued, Ranks, Descending;
    NewMqBuilds(s, id, priority);
  }

  lemma CloseNameable(s: Mail, p: Block, fd: int)
    requires MailInv(s) && Nameable(s)
    ensures Nameable(Close(s, p, fd).0)
  {
    if Lookup(s, p, fd).Some? {
      ByFdFinds(s, s.owned[p], fd);
      DetachMembers(s, p, Lookup(s, p, fd).value);
      hide MailInv;
    }
  }

  lemma UnlinkNameable(s: Mail, id: int)
    requires MailInv(s) && Nameable(s)
    ensures Nameable(Unlink(s, id).0)
  {
    var m := ById(s, s.mqList, id);
    ByIdFinds(s, s.mqList, id);
    if m.Some? && s.nums[m.value] == 0 && s.descsOf[m.value] == [] {
      DelistPlaced(s, m.value);
      DropQueuesFrame(Delist(s, m.value), m.value, 0);
      hide MailInv;
    }
  }

  lemma StepNameable(s: Mail, step: MailStep)
    requires MailInv(s) && Permitted(s, step) && Nameable(s)
    ensures Nameable(After(s, step))
  {
    hide MailInv, Open, Close, Unlink;
    match step
    case OpenStep(p, id, flags, priority) => OpenNameable(s, p, id, flags, priority);
    case WriteStep(_, _, _, _, _) =>
    case ReadStep(p, fd, bufSize) =>
      if Lookup(s, p, fd).Some? {
        ReadFromFrame(s, s.descs[Lookup(s, p, fd).value].mq, 0, bufSize);
      }
    case CloseStep(p, fd) => CloseNameable(s, p, fd);
    case UnlinkStep(id) => UnlinkNameable(s, id);
    case NewProcessStep(_) =>
  }

  lemma {:induction false} RunNameable(s: Mail, steps: seq<MailStep>)
    requires MailInv(s) && Legal(s, steps) && Nameable(s)
    ensures Nameable(Run(s, steps))
    decreases |steps|
  {
    hide MailInv, Nameable, After;
    if steps != [] {
      StepKeeps(s, steps[0]);
      StepNameable(s, steps[0]);
      RunNameable(After(s, steps[0]), steps[1..]);
    }
  }

  // ---- what cannot be undone

  /** Some permitted steps unlink m. They may be calls by any PCB blocks, those of dead processes included. */
  ghost predicate CanUnlink(s: Mail, m: MqBlock) {
    exists steps :: Legal(s, steps) && m !in Run(s, steps).mqList
  }

  /** The step is a call by one of these processes; anyone can unlink. */
  predicate ActedBy(step: MailStep, actors: set<Block>) {
    match step
    case UnlinkStep(_) => true
    case NewProcessStep(_) => false
    case _ => step.p in actors
  }

  predicate AllActedBy(steps: seq<MailStep>, actors: set<Block>) {
    forall i :: 0 <= i < |steps| ==> ActedBy(steps[i], actors)
  }

  /** Some permitted calls by these processes unlink m. */
  ghost predicate CanUnlinkBy(s: Mail, m: MqBlock, actors: set<Block>) {
    exists steps :: Legal(s, steps) && AllActedBy(steps, actors) && m !in Run(s, steps).mqList
  }

  /** The descriptors of m are for these processes. */
  ghost predicate OwnersIn(s: Mail, m: MqBlock, actors: set<Block>) {
    forall d :: d in s.descsOf[m] ==> s.descs[d].owner in actors
  }

  /** One of these processes has a descriptor, or can have one. */
  ghost predicate DescriptorFor(s: Mail, actors: set<Block>) {
    exists p :: p in actors && (s.owned[p] != [] || s.freeDescs != [])
  }

  ghost predicate NoOrphan(s: Mail, m: MqBlock) {
    forall d: Block :: !Orphan(s, m, d)
  }

  /** Not all descriptor blocks are orphaned. */
  ghost predicate DescriptorLeft(s: Mail) {
    s.freeDescs != [] || exists p: Block :: s.owned[p] != []
  }

  /** Without one, nobody can read, so that m keeps its messages. */
  lemma NobodyReads(s: Mail, step: MailStep, m: MqBlock)
    requires MailInv(s) && Permitted(s, step) && m in s.mqList && s.nums[m] != 0 && !DescriptorLeft(s)
    ensures m in After(s, step).mqList && After(s, step).nums[m] != 0 && !DescriptorLeft(After(s, step))
  {
    hide MailInv, AddQueues, Attach;
    assert forall p: Block, fd :: ByFd(s, s.owned[p], fd) == None;
    match step
    case OpenStep(p, id, flags, priority) => NobodyOpens(s, p, id, flags, priority);
    case UnlinkStep(id) => NobodyUnlinks(s, id, m);
    case _ =>
  }

  lemma NobodyOpens(s: Mail, p: Block, id: int, flags: int, priority: int)
    requires s.freeDescs == [] && s.mqList != [] && (Creates(s, p, id, flags, priority) ==> s.mqList == [])
    ensures Open(s, p, id, flags, priority).0 == s
  {
    hide AddQueues;
  }

  lemma NobodyUnlinks(s: Mail, id: int, m: MqBlock)
    requires MailInv(s) && m in s.mqList && s.nums[m] != 0
    ensures var t := Unlink(s, id).0;
            m in t.mqList && t.nums == s.nums && t.freeDescs == s.freeDescs && t.owned == s.owned
  {
    ByIdFinds(s, s.mqList, id);
    var n := ById(s, s.mqList, id);
    if n.Some? && s.nums[n.value] == 0 {
      DelistPlaced(s, n.value);
      DropQueuesFrame(Delist(s, n.value), n.value, 0);
    }
    hide MailInv;
  }

  lemma NoneOfThemReads(s: Mail, step: MailStep, m: MqBlock, actors: set<Block>)
    requires MailInv(s) && Permitted(s, step) && ActedBy(step, actors)
    requires m in s.mqList && s.nums[m] != 0 && !DescriptorFor(s, actors)
    ensures m in After(s, step).mqList && After(s, step).nums[m] != 0 && !DescriptorFor(After(s, step), actors)
  {
    hide MailInv, AddQueues, Attach;
    assert forall p: Block, fd :: p in actors ==> s.owned[p] == [] && ByFd(s, s.owned[p], fd) == None;
    match step
    case OpenStep(p, id, flags, priority) => NobodyOpens(s, p, id, flags, priority);
    case UnlinkStep(id) => NobodyUnlinks(s, id, m);
    case _ =>
  }

  lemma {:induction false} NoneOfThemEverReads(s: Mail, steps: seq<MailStep>, m: MqBlock, actors: set<Block>)
    requires MailInv(s) && Legal(s, steps) && AllActedBy(steps, actors)
    requires m in s.mqList && s.nums[m] != 0 && !DescriptorFor(s, actors)
    ensures m in Run(s, steps).mqList
    decreases |steps|
  {
    hide MailInv, After, ActedBy, DescriptorFor;
    if steps != [] {
      StepKeeps(s, steps[0]);
      NoneOfThemReads(s, steps[0], m, actors);
      NoneOfThemEverReads(After(s, steps[0]), steps[1..], m, actors);
    }
  }

  /** A descriptor of somebody else stays. */
  lemma {:induction false} OthersStay(s: Mail, steps: seq<MailStep>, m: MqBlock, d: Block, actors: set<Block>)
    requires MailInv(s) && Legal(s, steps) && AllActedBy(steps, actors)
    requires d in s.descsOf[m] && s.descs[d].owner !in actors
    ensures m in Run(s, steps).mqList
    decreases |steps|
  {
    DescsListed(s, m, d);
    hide MailInv, After;
    if steps != [] {
      StepKeeps(s, steps[0]);
      StepDescs(s, steps[0], m, d);
      OthersStay(After(s, steps[0]), steps[1..], m, d, actors);
    }
  }

  lemma DescsListed(s: Mail, m: MqBlock, d: Block)
    requires MailInv(s) && d in s.descsOf[m]
    ensures m in s.mqList
    ensures forall p: Block :: d in s.owned[p] ==> s.descs[d].owner == p
  {
  }

  lemma {:induction false} NobodyEverReads(s: Mail, steps: seq<MailStep>, m: MqBlock)
    requires MailInv(s) && Legal(s, steps) && m in s.mqList && s.nums[m] != 0 && !DescriptorLeft(s)
    ensures m in Run(s, steps).mqList
    decreases |steps|
  {
    hide MailInv, After, DescriptorLeft;
    if steps != [] {
      StepKeeps(s, steps[0]);
      NobodyReads(s, steps[0], m);
      NobodyEverReads(After(s, steps[0]), steps[1..], m);
    }
  }

  // ---- closing what is open

  /** m can still be emptied and closed by those who have it, who are among these processes. */
  ghost predicate Sound(s: Mail, m: MqBlock, actors: set<Block>) {
    && MailInv(s) && Nameable(s) && m in s.mqList && Stuck(s, m) == 0
    && NoOrphan(s, m) && OwnersIn(s, m, actors)
  }

  /** Only descriptors come and go. */
  ghost predicate SameMqs(s: Mail, t: Mail) {
    t == s.(descs := t.descs, freeDescs := t.freeDescs, owned := t.owned, descsOf := t.descsOf, lastFd := t.lastFd)
  }

  /** t is s with some descriptors closed. */
  ghost predicate Closed(s: Mail, t: Mail, m: MqBlock) {
    && SameMqs(s, t) && |s.freeDescs| <= |t.freeDescs|
    && forall d :: d in t.descsOf[m] ==> d in s.descsOf[m]
  }

  /** The owner of a descriptor closes the first one with its fd. */
  lemma CloseNext(s: Mail, m: MqBlock, actors: set<Block>, p: Block, d: Block) returns (step: MailStep)
    requires Sound(s, m, actors) && d in s.owned[p] && p in actors
    ensures Permitted(s, step) && ActedBy(step, actors)
    ensures Sound(After(s, step), m, actors) && Closed(s, After(s, step), m)
    ensures |After(s, step).freeDescs| == |s.freeDescs| + 1
  {
    hide MailInv, Nameable, Orphan, Stuck;
    var fd := s.descs[d].fd;
    step := CloseStep(p, fd);
    OwnedIsNamed(s, p, d);
    CloseKeeps(s, p, fd);
    CloseNameable(s, p, fd);
    forall e: Block
      ensures !Orphan(After(s, step), m, e)
    {
      assert !Orphan(s, m, e);
      CloseOrphanIff(s, p, fd, m, e);
    }
    SameStuck(s, After(s, step), m);
    ClosedMembers(s, p, fd, m);
    assert After(s, step).descs == s.descs;
  }

  lemma OwnedIsNamed(s: Mail, p: Block, d: Block)
    requires Nameable(s) && d in s.owned[p]
    ensures Lookup(s, p, s.descs[d].fd).Some?
  {
    ByFdFinds(s, s.owned[p], s.descs[d].fd);
  }

  lemma ClosedMembers(s: Mail, p: Block, fd: int, m: MqBlock)
    requires MailInv(s) && Lookup(s, p, fd).Some?
    ensures forall d :: d in Close(s, p, fd).0.descsOf[m] ==> d in s.descsOf[m]
  {
    LookupLinked(s, p, fd);
    DetachMembers(s, p, Lookup(s, p, fd).value);
    hide MailInv, Detach;
  }

  lemma FreeBounded(s: Mail)
    requires MailInv(s)
    ensures |s.freeDescs| <= MAX_NUM_PROCESSES
  {
    ExactlySize(DescBag(s), MAX_NUM_PROCESSES);
  }

  lemma OneThenRun(s: Mail, step: MailStep, rest: seq<MailStep>)
    requires Permitted(s, step) && Legal(After(s, step), rest)
    ensures Legal(s, [step] + rest) && Run(s, [step] + rest) == Run(After(s, step), rest)
  {
    hide After, Permitted;
    assert ([step] + rest)[1..] == rest;
  }

  /** All descriptors of m can be closed. */
  lemma {:induction false} CloseAll(s: Mail, m: MqBlock, actors: set<Block>) returns (steps: seq<MailStep>)
    requires Sound(s, m, actors)
    ensures Legal(s, steps) && AllActedBy(steps, actors)
    ensures Sound(Run(s, steps), m, actors) && Closed(s, Run(s, steps), m)
    ensures Run(s, steps).descsOf[m] == []
    decreases MAX_NUM_PROCESSES + 1 - |s.freeDescs|
  {
    hide MailInv, Nameable, Stuck, After, Permitted, ActedBy;
    if s.descsOf[m] == [] {
      steps := [];
    } else {
      var d := s.descsOf[m][0];
      assert !Orphan(s, m, d);
      assert d in s.descsOf[m];
      var step := CloseNext(s, m, actors, s.descs[d].owner, d);
      FreeBounded(After(s, step));
      var rest := CloseAll(After(s, step), m, actors);
      OneThenRun(s, step, rest);
      steps := [step] + rest;
    }
  }

  /** And so can all those of process p. */
  lemma {:induction false} CloseOwned(s: Mail, m: MqBlock, actors: set<Block>, p: Block) returns (steps: seq<MailStep>)
    requires Sound(s, m, actors) && p in actors
    ensures Legal(s, steps) && AllActedBy(steps, actors)
    ensures Sound(Run(s, steps), m, actors) && Closed(s, Run(s, steps), m)
    ensures Run(s, steps).owned[p] == [] && (s.owned[p] != [] ==> Run(s, steps).freeDescs != [])
    decreases MAX_NUM_PROCESSES + 1 - |s.freeDescs|
  {
    hide MailInv, Nameable, NoOrphan, OwnersIn, Stuck, After, Permitted, ActedBy;
    if s.owned[p] == [] {
      steps := [];
    } else {
      assert s.owned[p][0] in s.owned[p];
      var step := CloseNext(s, m, actors, p, s.owned[p][0]);
      FreeBounded(After(s, step));
      var rest := CloseOwned(After(s, step), m, actors, p);
      OneThenRun(s, step, rest);
      steps := [step] + rest;
    }
  }

  // ---- a descriptor to read through

  /** A process without descriptors opens m, which exists, and gets fd 0. */
  lemma OpenFirst(s: Mail, m: MqBlock, actors: set<Block>, p: Block) returns (step: MailStep)
    requires Sound(s, m, actors) && p in actors && s.owned[p] == [] && s.freeDescs != []
    ensures Permitted(s, step) && ActedBy(step, actors)
    ensures Sound(After(s, step), m, actors) && After(s, step).nums == s.nums
    ensures var t := After(s, step); Lookup(t, p, 0).Some? && t.descs[Lookup(t, p, 0).value].mq == m
  {
    hide MailInv, Nameable, Orphan, Stuck, Attach;
    var id := s.ids[m];
    step := OpenStep(p, id, 0, 0);
    FoundById(s, m);
    assert !CreateSet(0);
    assert Open(s, p, id, 0, 0) == Attach(s, p, m) by { NameableId(s, m); NoFds(s, p); }
    OpenKeeps(s, p, id, 0, 0);
    OpenNameable(s, p, id, 0, 0);
    forall e: Block
      ensures !Orphan(After(s, step), m, e)
    {
      assert !Orphan(s, m, e);
      OpenOrphanIff(s, p, id, 0, 0, m, e);
    }
    AttachedFirst(s, p, m);
    SameStuck(s, After(s, step), m);
    AttachedOwners(s, m, actors, p);
  }

  lemma AttachedOwners(s: Mail, m: MqBlock, actors: set<Block>, p: Block)
    requires MailInv(s) && OwnersIn(s, m, actors) && p in actors
    ensures OwnersIn(Attach(s, p, m).0, m, actors)
  {
    FreeDescsApart(s, m);
    hide MailInv;
    var t := Attach(s, p, m).0;
    assert forall d :: d in t.descsOf[m] ==> d in s.descsOf[m] || t.descs[d].owner == p;
  }

  lemma FoundById(s: Mail, m: MqBlock)
    requires MailInv(s) && m in s.mqList
    ensures ById(s, s.mqList, s.ids[m]) == Some(m)
  {
    ByIdFinds(s, s.mqList, s.ids[m]);
  }

  lemma NameableId(s: Mail, m: MqBlock)
    requires Nameable(s) && m in s.mqList
    ensures s.ids[m] >= 0
  {
  }

  lemma NoFds(s: Mail, p: Block)
    requires MailInv(s) && s.owned[p] == []
    ensures s.lastFd[p] == 0
  {
  }

  lemma AttachedFirst(s: Mail, p: Block, m: MqBlock)
    requires MailInv(s) && s.owned[p] == [] && s.freeDescs != []
    ensures var t := Attach(s, p, m).0;
            && Lookup(t, p, 0).Some? && t.descs[Lookup(t, p, 0).value].mq == m
            && SameMqs(s, t)
  {
    NoFds(s, p);
    hide MailInv;
    var t, d := Attach(s, p, m).0, s.freeDescs[0];
    assert t.owned[p] == [d];
    assert ByFd(t, [d], 0) == Some(d);
  }

  /** Some process makes room, and opens m. */
  lemma GetDescriptor(s: Mail, m: MqBlock, actors: set<Block>) returns (steps: seq<MailStep>, p: Block)
    requires Sound(s, m, actors) && DescriptorFor(s, actors)
    ensures Legal(s, steps) && AllActedBy(steps, actors) && p in actors
    ensures Sound(Run(s, steps), m, actors) && Run(s, steps).nums == s.nums
    ensures var t := Run(s, steps); Lookup(t, p, 0).Some? && t.descs[Lookup(t, p, 0).value].mq == m
  {
    hide MailInv, Nameable, NoOrphan, OwnersIn, Stuck, After, Permitted, ActedBy;
    p :| p in actors && (s.owned[p] != [] || s.freeDescs != []);
    var closes := CloseOwned(s, m, actors, p);
    var step := OpenFirst(Run(s, closes), m, actors, p);
    OneThenRun(Run(s, closes), step, []);
    RunConcat(s, closes, [step] + []);
    steps := closes + ([step] + []);
  }

  // ---- reading it empty

  /** Reads are steps. */
  lemma {:induction false} ReadSteps(s: Mail, p: Block, fd: int, n: nat) returns (steps: seq<MailStep>)
    ensures Legal(s, steps) && Run(s, steps) == Reads(s, p, fd, n) && AllActedBy(steps, {p})
    decreases n
  {
    if n == 0 {
      steps := [];
    } else {
      hide Read;
      var step := ReadStep(p, fd, MAX_MESSAGE_LENGTH);
      var rest := ReadSteps(After(s, step), p, fd, n - 1);
      OneThenRun(s, step, rest);
      steps := [step] + rest;
    }
  }

  lemma SameOrphans(s: Mail, t: Mail, m: MqBlock)
    requires NoOrphan(s, m) && t.descsOf == s.descsOf && t.descs == s.descs && t.owned == s.owned
    ensures NoOrphan(t, m)
  {
    hide Orphan;
    forall d: Block
      ensures !Orphan(t, m, d)
    {
      assert !Orphan(s, m, d);
      SameOrphan(s, t, m, d);
    }
  }

  lemma Drain(s: Mail, m: MqBlock, actors: set<Block>, p: Block) returns (steps: seq<MailStep>)
    requires Sound(s, m, actors) && Lookup(s, p, 0).Some? && s.descs[Lookup(s, p, 0).value].mq == m && p in actors
    ensures Legal(s, steps) && AllActedBy(steps, actors)
    ensures Sound(Run(s, steps), m, actors) && Run(s, steps).nums[m] == 0
  {
    hide MailInv, Orphan, NoOrphan, Stuck, Lookup, Legal, Run;
    DrainedIff(s, p, 0);
    ReadsFrame(s, p, 0, s.nums[m]);
    steps := ReadSteps(s, p, 0, s.nums[m]);
    SameOrphans(s, Run(s, steps), m);
    NothingStuck(Run(s, steps), m);
  }

  lemma EmptyIsUnlinked(s: Mail, m: MqBlock)
    requires MailInv(s) && m in s.mqList && s.nums[m] == 0 && s.descsOf[m] == []
    ensures m !in Unlink(s, s.ids[m]).0.mqList
  {
    FoundById(s, m);
    DelistPlaced(s, m);
    DropQueuesFrame(Delist(s, m), m, 0);
    hide MailInv;
  }

  /** Empty and closed, m is unlinked; who unlinks it does not matter. */
  lemma CloseAndUnlink(s: Mail, m: MqBlock, actors: set<Block>) returns (steps: seq<MailStep>)
    requires Sound(s, m, actors) && s.nums[m] == 0
    ensures Legal(s, steps) && AllActedBy(steps, actors) && m !in Run(s, steps).mqList
  {
    hide MailInv, Nameable, NoOrphan, OwnersIn, Stuck, Unlink;
    var closes := CloseAll(s, m, actors);
    var t := Run(s, closes);
    var step := UnlinkStep(t.ids[m]);
    EmptyIsUnlinked(t, m);
    OneThenRun(t, step, []);
    RunConcat(s, closes, [step] + []);
    steps := closes + ([step] + []);
  }

  lemma SoundIsUnlinkable(s: Mail, m: MqBlock, actors: set<Block>)
    requires Sound(s, m, actors) && (s.nums[m] == 0 || DescriptorFor(s, actors))
    ensures CanUnlinkBy(s, m, actors)
  {
    hide Sound, DescriptorFor, Legal, Run, ActedBy;
    if s.nums[m] == 0 {
      var steps := CloseAndUnlink(s, m, actors);
    } else {
      var opens, p := GetDescriptor(s, m, actors);
      var t := Run(s, opens);
      var drains := Drain(t, m, actors, p);
      var u := Run(t, drains);
      var ends := CloseAndUnlink(u, m, actors);
      RunConcat(t, drains, ends);
      RunConcat(s, opens, drains + ends);
    }
  }

  /** What these processes can still unlink: a message queue with nothing stuck in it, whose descriptors are all in the
      lists of some of them, as long as one of them can have a descriptor to read its messages through. */
  lemma UnlinkableByIff(s: Mail, m: MqBlock, actors: set<Block>)
    requires MailInv(s) && Nameable(s) && m in s.mqList
    ensures CanUnlinkBy(s, m, actors) <==>
              && Stuck(s, m) == 0 && NoOrphan(s, m) && OwnersIn(s, m, actors)
              && (s.nums[m] == 0 || DescriptorFor(s, actors))
  {
    hide MailInv, Nameable, Stuck, Orphan, DescriptorFor, Legal, Run, AllActedBy;
    if CanUnlinkBy(s, m, actors) {
      var steps :| Legal(s, steps) && AllActedBy(steps, actors) && m !in Run(s, steps).mqList;
      if d: Block :| Orphan(s, m, d) {
        OrphanForever(s, steps, m, d);
      }
      StuckNotNegative(s, m);
      if Stuck(s, m) > 0 {
        StuckForever(s, steps, m);
      }
      if d :| d in s.descsOf[m] && s.descs[d].owner !in actors {
        OthersStay(s, steps, m, d, actors);
      }
      if s.nums[m] != 0 && !DescriptorFor(s, actors) {
        NoneOfThemEverReads(s, steps, m, actors);
      }
    } else if Stuck(s, m) == 0 && NoOrphan(s, m) && OwnersIn(s, m, actors)
              && (s.nums[m] == 0 || DescriptorFor(s, actors)) {
      SoundIsUnlinkable(s, m, actors);
    }
  }

  function PcbsBelow(n: nat): (r: set<Block>)
    requires n <= MAX_NUM_PROCESSES
    ensures forall p: Block :: p < n ==> p in r
  {
    if n == 0 then {} else PcbsBelow(n - 1) + {n - 1}
  }

  lemma AnyOfThem(s: Mail, m: MqBlock)
    ensures OwnersIn(s, m, PcbsBelow(MAX_NUM_PROCESSES))
    ensures DescriptorLeft(s) ==> DescriptorFor(s, PcbsBelow(MAX_NUM_PROCESSES))
  {
    if s.freeDescs != [] {
      var p: Block := 0;
      assert p in PcbsBelow(MAX_NUM_PROCESSES) && s.freeDescs != [];
    }
  }

  /** What permitted steps can still unlink, whichever PCB blocks make the calls: a message queue with nothing stuck in
      it and no descriptor orphaned, as long as there is a descriptor to read its messages through. */
  lemma UnlinkableIff(s: Mail, m: MqBlock)
    requires MailInv(s) && Nameable(s) && m in s.mqList
    ensures CanUnlink(s, m) <==> Stuck(s, m) == 0 && NoOrphan(s, m) && (s.nums[m] == 0 || DescriptorLeft(s))
  {
    hide MailInv, Nameable, Stuck, Orphan, DescriptorLeft, Legal, Run;
    StuckIsCounted(s, m);
    if CanUnlink(s, m) {
      var steps :| Legal(s, steps) && m !in Run(s, steps).mqList;
      if d: Block :| Orphan(s, m, d) {
        OrphanForever(s, steps, m, d);
      }
      StuckNotNegative(s, m);
      if Stuck(s, m) > 0 {
        StuckForever(s, steps, m);
      }
      if s.nums[m] != 0 && !DescriptorLeft(s) {
        NobodyEverReads(s, steps, m);
      }
    } else if Stuck(s, m) == 0 && NoOrphan(s, m) && (s.nums[m] == 0 || DescriptorLeft(s)) {
      AnyOfThem(s, m);
      SoundIsUnlinkable(s, m, PcbsBelow(MAX_NUM_PROCESSES));
      ByThemIsByAny(s, m, PcbsBelow(MAX_NUM_PROCESSES));
    }
  }

  lemma ByThemIsByAny(s: Mail, m: MqBlock, actors: set<Block>)
    requires CanUnlinkBy(s, m, actors)
    ensures CanUnlink(s, m)
  {
    hide Legal, Run, AllActedBy;
  }

  lemma StuckNotNegative(s: Mail, m: MqBlock)
    ensures Stuck(s, m) >= 0
  {
  }

  /** So it is in every state that calls can reach from the start. */
  lemma ReachableUnlinkableIff(s: Mail, steps: seq<MailStep>, m: MqBlock)
    requires Boot(s) && Legal(s, steps) && m in Run(s, steps).mqList
    ensures var t := Run(s, steps);
            CanUnlink(t, m) <==> Stuck(t, m) == 0 && NoOrphan(t, m) && (t.nums[m] == 0 || DescriptorLeft(t))
  {
    hide MailInv, Stuck, NoOrphan, DescriptorLeft, Legal, Run, CanUnlink;
    BootHolds(s);
    RunKeeps(s, steps);
    RunNameable(s, steps);
    UnlinkableIff(Run(s, steps), m);
  }

  /** After proper use only orphaned descriptors are in the way. */
  lemma ProperUseUnlinkableIff(s: Mail, steps: seq<MailStep>, m: MqBlock)
    requires Boot(s) && Legal(s, steps) && AllProper(s, steps) && m in Run(s, steps).mqList
    ensures var t := Run(s, steps);
            CanUnlink(t, m) <==> NoOrphan(t, m) && (t.nums[m] == 0 || DescriptorLeft(t))
  {
    ReachableUnlinkableIff(s, steps, m);
    BootHolds(s);
    assert NoneStuck(s);
    hide MailInv, Stuck, NoOrphan, DescriptorLeft, Legal, Run, CanUnlink, AllProper;
    RunUnstuck(s, steps);
  }
}
