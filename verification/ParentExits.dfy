/** The whole effect of exit, of a process with or without children. The runs of the kernel leave out the exits of
    processes with children, as those break the families; here is what becomes of everybody all the same. */
module ParentExits {
  import opened Bags
  import opened Timers
  import opened Processes
  import opened ProcessLaws
  import opened ProcessSteps
  import opened ProcessExits
  import opened Families
  import opened KernelCalls

  /** SIGHUP and SIGCHLD, if sent and not masked, are pending besides the signals that were; the others stay. */
  predicate Signals(before: bv32, mask: bv32, after: bv32, hup: bool, chld: bool) {
    && (after & SIGHUP != 0 <==> before & SIGHUP != 0 || (hup && mask & SIGHUP != 0))
    && (after & SIGCHLD != 0 <==> before & SIGCHLD != 0 || (chld && mask & SIGCHLD != 0))
    && after & !(SIGHUP | SIGCHLD) == before & !(SIGHUP | SIGCHLD)
  }

  predicate Sent(before: Pcb, after: Pcb, hup: bool, chld: bool) {
    Signals(before.signals, before.signalsMask, after.signals, hup, chld)
  }

  lemma TwoSignals(pcb: Pcb, hup: bool, chld: bool)
    ensures var one := if hup then Signalled(pcb, SIGHUP) else pcb;
            Sent(pcb, if chld then Signalled(one, SIGCHLD) else one, hup, chld)
  {
  }

  lemma SameSent(before: Pcb, a: Pcb, b: Pcb, hup: bool, chld: bool)
    requires Sent(before, a, hup, chld) && a.signals == b.signals
    ensures Sent(before, b, hup, chld)
  {
    hide Signals;
  }

  /** The children lists when those of r have joined those of init. */
  function Adopted(s: Proc, r: Block): ListTable {
    s.children[r := []][s.init := s.children[s.init] + s.children[r]]
  }

  /** The parent, which waits for the dead process, goes on with its pid and its value, and the PCB is free. */
  ghost predicate HandedOver(s: Proc, t: Proc, r: Block, q: Block, children: ListTable) {
    var record := ExitRecord(s.pcbs[r].pid, s.pcbs[r].arg0, s.pcbs[q].pid);
    && t == s.(running := Ref(q), waiting := Remove(s.waiting, q), children := children[q := Remove(children[q], r)],
               freePcbs := [r] + s.freePcbs,
               memory := if s.pcbs[q].arg1 == 0 then s.memory else s.memory[s.pcbs[q].arg1 := s.pcbs[r].arg0],
               exited := s.exited + [record], delivered := s.delivered + [record], pcbs := t.pcbs)
    && forall p: Block :: p != r ==>
         t.pcbs[p] == s.pcbs[p].(status := if p == q then Running else s.pcbs[p].status,
                                 retvalue := if p == q then s.pcbs[r].pid else s.pcbs[p].retvalue,
                                 signals := t.pcbs[p].signals)
  }

  /** The dead process is a zombie, and the first ready one runs. */
  ghost predicate LeftBehind(s: Proc, t: Proc, r: Block, q: Block, children: ListTable) {
    && s.ready != []
    && t == s.(running := Ref(s.ready[0]), ready := s.ready[1..], zombies := s.zombies + [r], children := children,
               exited := s.exited + [ExitRecord(s.pcbs[r].pid, s.pcbs[r].arg0, s.pcbs[q].pid)], pcbs := t.pcbs)
    && forall p: Block :: p != r ==>
         t.pcbs[p] == s.pcbs[p].(status := if p == s.ready[0] then Running else s.pcbs[p].status,
                                 signals := t.pcbs[p].signals)
  }

  /** Whoever exits, all children join those of init, in order, and are sent SIGHUP; the parent is sent SIGCHLD, and
      goes on at once if it waits for this process. */
  lemma ExitOfAny(s: Proc, sw: multiset<Block>)
    requires Inv(s, sw) && CanExit(s) && s.pcbs[s.running.p].parent != s.running
    ensures var r, q, t := s.running.p, s.pcbs[s.running.p].parent.p, Exit(s);
            && (forall p: Block :: Sent(s.pcbs[p], t.pcbs[p], p in s.children[r], p == q))
            && t.pcbs[r] ==
               s.pcbs[r].(returnValue := s.pcbs[r].arg0, status := Zombie, signals := t.pcbs[r].signals)
            && if ParentWaits(s) then HandedOver(s, t, r, q, Adopted(s, r)) else LeftBehind(s, t, r, q, Adopted(s, r))
  {
    hide Inv, Reparent, Sent, Exit, Remove, Signalled, Die;
    var r, q, u, t := s.running.p, s.pcbs[s.running.p].parent.p, Reparent(s), Exit(s);
    ReparentMovesAll(s, sw);
    ExitAfterReparenting(s);
    DyingApart(s, sw);
    Dies(u, r, q);
    forall p: Block
      ensures Sent(s.pcbs[p], t.pcbs[p], p in s.children[r], p == q)
    {
      ReparentSends(s, sw, p);
      TwoSignals(s.pcbs[p], p in s.children[r], p == q);
      var one := u.pcbs[p];
      SameSent(s.pcbs[p], if p == q then Signalled(one, SIGCHLD) else one, t.pcbs[p], p in s.children[r], p == q);
    }
  }

  lemma ReparentSends(s: Proc, sw: multiset<Block>, p: Block)
    requires Inv(s, sw) && s.running.Ref? && s.running.p != s.init
    ensures Reparent(s).pcbs[p] == if p in s.children[s.running.p] then Signalled(s.pcbs[p], SIGHUP) else s.pcbs[p]
  {
    ChildrenDistinct(s, s.running.p);
    ReparentSignals(s, p);
  }

  /** Nothing but its parent's list of children speaks of the dying process, and nobody there has its pid. */
  ghost predicate Alone(s: Proc, r: Block, q: Block) {
    && r !in Pcbs(s.timers) && r !in s.zombies && r !in s.ready && r in s.children[q]
    && forall c :: c in s.children[q] && c != r ==> s.pcbs[c].pid != s.pcbs[r].pid
  }

  lemma DyingApart(s: Proc, sw: multiset<Block>)
    requires Inv(s, sw) && CanExit(s) && s.pcbs[s.running.p].parent != s.running
    ensures Alone(Reparent(s), s.running.p, s.pcbs[s.running.p].parent.p)
  {
    var r, q, u := s.running.p, s.pcbs[s.running.p].parent.p, Reparent(s);
    PlacesApart(s);
    NotWaiting(s, sw, r);
    HasParent(s, r);
    ReparentMovesAll(s, sw);
    forall c | c in u.children[q] && c != r
      ensures u.pcbs[c].pid != u.pcbs[r].pid
    {
      ChildInUse(s, if c in s.children[q] then q else r, c);
    }
  }

  /** The second half of exit, for a process whose children have gone. */
  lemma Dies(s: Proc, r: Block, q: Block)
    requires s.running == Ref(r) && s.pcbs[r].parent == Ref(q) && q != r && Alone(s, r, q)
    requires s.ready != [] || AwaitedBy(Die(s), r, q)
    ensures var t := AfterReparenting(s);
            && (forall p: Block :: p != r ==>
                  t.pcbs[p].signals == (if p == q then Signalled(s.pcbs[p], SIGCHLD) else s.pcbs[p]).signals)
            && t.pcbs[r] == s.pcbs[r].(returnValue := s.pcbs[r].arg0, status := Zombie)
            && if ParentWaits(s) then HandedOver(s, t, r, q, s.children) else LeftBehind(s, t, r, q, s.children)
  {
    hide Signalled, Remove, HandedOver, LeftBehind;
    if ParentWaits(s) {
      DiesAwaited(s, r, q);
    } else {
      DiesAlone(s, r, q);
    }
  }

  lemma DiesAwaited(s: Proc, r: Block, q: Block)
    requires s.running == Ref(r) && s.pcbs[r].parent == Ref(q) && q != r && Alone(s, r, q) && ParentWaits(s)
    ensures AwaitedBy(Die(s), r, q) && HandedOver(s, HandOff(Die(s)), r, q, s.children)
  {
    hide Signalled, Remove;
    NoTimersOfOthers(s.timers, r);
    RemoveAppended(s.zombies, r);
    RemovePidIsRemove(Die(s), s.children[q], r);
  }

  lemma DiesAlone(s: Proc, r: Block, q: Block)
    requires s.running == Ref(r) && s.pcbs[r].parent == Ref(q) && q != r && Alone(s, r, q) && !ParentWaits(s)
    requires s.ready != []
    ensures !AwaitedBy(Die(s), r, q) && LeftBehind(s, RunNext(Die(s)), r, q, s.children)
  {
    hide Signalled;
  }
}
