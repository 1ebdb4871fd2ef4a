/** disastrOS_timer.c: the timer list, ordered by awakening time. */
module Timers {
  import opened Bags

  const MAX_NUM_PROCESSES := 1024

  /** The address of a PCB is its index in the PCB buffer. */
  type Block = x: int | 0 <= x < MAX_NUM_PROCESSES

  datatype Timer = Timer(block: Block, time: int, pcb: Block)

  /** TimerList_add: behind everything that is due no later, in front of the first that is due later. */
  function Insert(ts: seq<Timer>, x: Timer): seq<Timer> {
    if ts == [] || x.time < ts[0].time then [x] + ts
    else [ts[0]] + Insert(ts[1..], x)
  }

  ghost predicate Sorted(ts: seq<Timer>) {
    forall i, j :: 0 <= i < j < |ts| ==> ts[i].time <= ts[j].time
  }

  function Due(ts: seq<Timer>, now: int): seq<Timer> {
    if ts == [] then []
    else if ts[0].time <= now then [ts[0]] + Due(ts[1..], now)
    else Due(ts[1..], now)
  }

  function Later(ts: seq<Timer>, now: int): seq<Timer> {
    if ts == [] then []
    else if ts[0].time <= now then Later(ts[1..], now)
    else [ts[0]] + Later(ts[1..], now)
  }

  /** The timers for one instant, in list order. */
  function ForInstant(ts: seq<Timer>, t: int): seq<Timer> {
    if ts == [] then []
    else if ts[0].time == t then [ts[0]] + ForInstant(ts[1..], t)
    else ForInstant(ts[1..], t)
  }

  function Pcbs(ts: seq<Timer>): (r: seq<Block>)
    ensures |r| == |ts|
  {
    seq(|ts|, i requires 0 <= i < |ts| => ts[i].pcb)
  }

  function TimerBlocks(ts: seq<Timer>): (r: seq<Block>)
    ensures |r| == |ts|
  {
    seq(|ts|, i requires 0 <= i < |ts| => ts[i].block)
  }

  lemma {:induction false} InsertSplits(ts: seq<Timer>, x: Timer) returns (k: nat)
    ensures k <= |ts| && Insert(ts, x) == ts[..k] + [x] + ts[k..]
    ensures forall i :: 0 <= i < k ==> ts[i].time <= x.time
    ensures k < |ts| ==> x.time < ts[k].time
  {
    if ts == [] || x.time < ts[0].time {
      k := 0;
    } else {
      var k' := InsertSplits(ts[1..], x);
      k := k' + 1;
      assert ts[..k] == [ts[0]] + ts[1..][..k'];
      assert ts[k..] == ts[1..][k'..];
      forall i | 0 <= i < k
        ensures ts[i].time <= x.time
      {
        if i > 0 { assert ts[i] == ts[1..][i - 1]; }
      }
    }
  }

  lemma InsertSorted(ts: seq<Timer>, x: Timer)
    requires Sorted(ts)
    ensures Sorted(Insert(ts, x))
  {
    var k := InsertSplits(ts, x);
  }

  lemma {:induction false} ForInstantConcat(a: seq<Timer>, b: seq<Timer>, t: int)
    ensures ForInstant(a + b, t) == ForInstant(a, t) + ForInstant(b, t)
  {
    if a == [] {
      assert a + b == b;
    } else {
      ForInstantConcat(a[1..], b, t);
      assert (a + b)[1..] == a[1..] + b;
    }
  }

  lemma {:induction false} NoneForInstant(ts: seq<Timer>, t: int)
    requires forall i :: 0 <= i < |ts| ==> ts[i].time != t
    ensures ForInstant(ts, t) == []
  {
    if ts != [] {
      assert forall i :: 0 <= i < |ts[1..]| ==> ts[1..][i] == ts[i + 1];
      NoneForInstant(ts[1..], t);
    }
  }

  /** Among the timers for one instant, the new one is last; those for other instants are untouched. */
  lemma InsertStable(ts: seq<Timer>, x: Timer, t: int)
    requires Sorted(ts)
    ensures ForInstant(Insert(ts, x), t) == ForInstant(ts, t) + (if x.time == t then [x] else [])
  {
    hide Insert;
    var k := InsertSplits(ts, x);
    var front, back := ts[..k], ts[k..];
    assert ts == front + back;
    if x.time == t {
      LaterThan(ts, k, t);
    }
    ForInstantBetween(front, x, back, t);
  }

  lemma LaterThan(ts: seq<Timer>, k: nat, t: int)
    requires Sorted(ts) && k <= |ts| && (k < |ts| ==> t < ts[k].time)
    ensures ForInstant(ts[k..], t) == []
  {
    assert forall i :: 0 <= i < |ts[k..]| ==> ts[k..][i] == ts[k + i] && ts[k].time <= ts[k + i].time;
    NoneForInstant(ts[k..], t);
  }

  lemma ForInstantBetween(front: seq<Timer>, x: Timer, back: seq<Timer>, t: int)
    requires x.time == t ==> ForInstant(back, t) == []
    ensures ForInstant(front + [x] + back, t) == ForInstant(front + back, t) + if x.time == t then [x] else []
  {
    ForInstantConcat(front, back, t);
    ForInstantConcat(front + [x], back, t);
    ForInstantConcat(front, [x], t);
  }

  /** The list after a run of TimerList_add calls, oldest first. */
  function AddAll(xs: seq<Timer>): seq<Timer> {
    if xs == [] then [] else Insert(AddAll(xs[..|xs| - 1]), xs[|xs| - 1])
  }

  /** Any run of additions leaves the stable sort of what was added. */
  lemma {:induction false} AddAllSortsStably(xs: seq<Timer>, t: int)
    ensures Sorted(AddAll(xs))
    ensures ForInstant(AddAll(xs), t) == ForInstant(xs, t)
  {
    if xs != [] {
      var init, x := xs[..|xs| - 1], xs[|xs| - 1];
      AddAllSortsStably(init, t);
      InsertSorted(AddAll(init), x);
      InsertStable(AddAll(init), x, t);
      assert xs == init + [x];
      ForInstantConcat(init, [x], t);
    }
  }

  lemma SortedTail(ts: seq<Timer>)
    requires Sorted(ts) && ts != []
    ensures Sorted(ts[1..])
  {
  }

  /** Sorted and stable leaves no choice: two such lists of the same timers are equal. */
  lemma {:induction false} StableSortUnique(a: seq<Timer>, b: seq<Timer>)
    requires Sorted(a) && Sorted(b)
    requires forall t :: ForInstant(a, t) == ForInstant(b, t)
    ensures a == b
    decreases |a| + |b|
  {
    EmptyTogether(a, b);
    EmptyTogether(b, a);
    if a != [] {
      SameHead(a, b);
      SortedTail(a);
      SortedTail(b);
      forall t
        ensures ForInstant(a[1..], t) == ForInstant(b[1..], t)
      {
        assert ForInstant(a, t) == ForInstant(b, t);
        if a[0].time == t {
          assert ForInstant(a[1..], t) == ForInstant(a, t)[1..];
          assert ForInstant(b[1..], t) == ForInstant(b, t)[1..];
        }
      }
      StableSortUnique(a[1..], b[1..]);
      assert a == [a[0]] + a[1..] && b == [b[0]] + b[1..];
    }
  }

  lemma EmptyTogether(a: seq<Timer>, b: seq<Timer>)
    requires forall t :: ForInstant(a, t) == ForInstant(b, t)
    ensures a != [] ==> b != []
  {
    if a != [] {
      assert ForInstant(a, a[0].time) == ForInstant(b, a[0].time);
    }
  }

  lemma FirstNotLater(a: seq<Timer>, b: seq<Timer>)
    requires Sorted(b) && a != [] && b != []
    requires ForInstant(a, a[0].time) == ForInstant(b, a[0].time)
    ensures b[0].time <= a[0].time
  {
    assert ForInstant(a, a[0].time)[0] == a[0];
    assert forall i :: 0 <= i < |b| ==> b[i].time >= b[0].time;
    if a[0].time < b[0].time {
      NoneForInstant(b, a[0].time);
    }
  }

  lemma SameHead(a: seq<Timer>, b: seq<Timer>)
    requires Sorted(a) && Sorted(b) && a != [] && b != []
    requires forall t :: ForInstant(a, t) == ForInstant(b, t)
    ensures a[0] == b[0]
  {
    assert ForInstant(a, a[0].time) == ForInstant(b, a[0].time);
    assert ForInstant(a, b[0].time) == ForInstant(b, b[0].time);
    FirstNotLater(a, b);
    FirstNotLater(b, a);
    assert ForInstant(a, a[0].time)[0] == a[0] && ForInstant(b, b[0].time)[0] == b[0];
  }

  lemma {:induction false} NoneDue(ts: seq<Timer>, now: int)
    requires forall i :: 0 <= i < |ts| ==> ts[i].time > now
    ensures Due(ts, now) == [] && Later(ts, now) == ts
  {
    if ts != [] {
      assert forall i :: 0 <= i < |ts[1..]| ==> ts[1..][i] == ts[i + 1];
      NoneDue(ts[1..], now);
      assert ts == [ts[0]] + ts[1..];
    }
  }

  /** On a sorted list the due timers are a prefix and the others the rest. */
  lemma {:induction false} DueIsPrefix(ts: seq<Timer>, now: int)
    requires Sorted(ts)
    ensures Due(ts, now) + Later(ts, now) == ts
  {
    if ts != [] {
      if ts[0].time > now {
        NoneDue(ts, now);
      } else {
        SortedTail(ts);
        DueIsPrefix(ts[1..], now);
        assert ts == [ts[0]] + ts[1..];
      }
    }
  }

  lemma {:induction false} DueAndLater(ts: seq<Timer>, now: int)
    ensures forall x :: x in Due(ts, now) <==> x in ts && x.time <= now
    ensures forall x :: x in Later(ts, now) <==> x in ts && x.time > now
    ensures |Due(ts, now)| + |Later(ts, now)| == |ts|
  {
    if ts != [] {
      DueAndLater(ts[1..], now);
      assert ts == [ts[0]] + ts[1..];
    }
  }
}
