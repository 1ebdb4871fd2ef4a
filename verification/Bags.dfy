/** Multisets of blocks: the vocabulary in which the conservation laws of the kernel are stated. */
module Bags {

  datatype Option<T> = None | Some(value: T)

  /** Every block 0..n-1 occurs exactly once in the bag, and nothing else does. */
  ghost predicate Exactly(b: multiset<int>, n: nat) {
    forall x :: b[x] == if 0 <= x < n then 1 else 0
  }

  ghost predicate NoDuplicates<T>(s: seq<T>) {
    forall i, j :: 0 <= i < j < |s| ==> s[i] != s[j]
  }

  /** The union, with multiplicities, of a family of lists. */
  ghost function Sum<T>(lists: seq<seq<T>>): multiset<T> {
    if lists == [] then multiset{} else multiset(lists[0]) + Sum(lists[1..])
  }

  /** List_detach on the sequence a list refines: the first occurrence of x disappears. */
  function Remove<T(==)>(s: seq<T>, x: T): seq<T> {
    if s == [] then []
    else if s[0] == x then s[1..]
    else [s[0]] + Remove(s[1..], x)
  }

  /** m is l without one occurrence of x, the others in order. */
  ghost predicate WithoutOne<T>(l: seq<T>, m: seq<T>, x: T) {
    exists k :: 0 <= k < |l| && l[k] == x && m == l[..k] + l[k + 1..]
  }

  /** List_detach on a member. */
  function DetachFrom<T(==)>(l: seq<T>, x: T): seq<T>
    requires x in l
  {
    Remove(l, x)
  }

  /** PoolAllocator_releaseBlock, on a block in use, so that it succeeds (BlockPool.Give). */
  function GiveBlock<T(==)>(free: seq<T>, p: T): seq<T>
    requires p !in free
  {
    [p] + free
  }

  lemma {:induction false} ExactlySize(b: multiset<int>, n: nat)
    requires Exactly(b, n)
    ensures |b| == n
  {
    if n == 0 {
      assert forall x :: x !in b;
    } else {
      var rest := b - multiset{n - 1};
      assert b == rest + multiset{n - 1};
      ExactlySize(rest, n - 1);
    }
  }

  lemma PopFront<T>(s: seq<T>)
    requires s != []
    ensures multiset(s) == multiset{s[0]} + multiset(s[1..])
  {
    assert s == [s[0]] + s[1..];
  }

  lemma SplitBag<T>(s: seq<T>, k: nat)
    requires k <= |s|
    ensures multiset(s) == multiset(s[..k]) + multiset(s[k..])
  {
    assert s == s[..k] + s[k..];
  }

  lemma {:induction false} RemoveBag<T>(s: seq<T>, x: T)
    requires x in s
    ensures multiset(s) == multiset(Remove(s, x)) + multiset{x}
  {
    PopFront(s);
    if s[0] != x {
      RemoveBag(s[1..], x);
    }
  }

  /** Where the removed element was. */
  lemma {:induction false} RemoveSplits<T>(s: seq<T>, x: T) returns (k: nat)
    requires x in s
    ensures k < |s| && s[k] == x && x !in s[..k]
    ensures Remove(s, x) == s[..k] + s[k + 1..]
  {
    if s[0] == x {
      k := 0;
    } else {
      var k' := RemoveSplits(s[1..], x);
      k := k' + 1;
      assert s[..k] == [s[0]] + s[1..][..k'];
    }
  }

  /** In a list without duplicates, the removed element was where it is. */
  lemma RemoveIndex<T>(s: seq<T>, k: nat)
    requires NoDuplicates(s) && k < |s|
    ensures Remove(s, s[k]) == s[..k] + s[k + 1..]
  {
    var j := RemoveSplits(s, s[k]);
  }

  lemma {:induction false} RemoveAbsent<T>(s: seq<T>, x: T)
    requires x !in s
    ensures Remove(s, x) == s
  {
    if s != [] {
      RemoveAbsent(s[1..], x);
      assert s == [s[0]] + s[1..];
    }
  }

  lemma AddToBoth<T>(m: multiset<T>, a: multiset<T>, b: multiset<T>, c: multiset<T>, d: multiset<T>)
    requires a + b == c + d
    ensures (m + a) + b == (m + c) + d
  {
    assert (m + a) + b == m + (a + b);
    assert (m + c) + d == m + (c + d);
  }

  lemma {:induction false} SumUpdate<T>(lists: seq<seq<T>>, i: nat, s: seq<T>)
    requires i < |lists|
    ensures Sum(lists[i := s]) + multiset(lists[i]) == Sum(lists) + multiset(s)
  {
    var lists' := lists[i := s];
    if i == 0 {
      assert lists'[1..] == lists[1..];
    } else {
      assert lists'[1..] == lists[1..][i - 1 := s];
      SumUpdate(lists[1..], i - 1, s);
      AddToBoth(multiset(lists[0]), Sum(lists'[1..]), multiset(lists[i]), Sum(lists[1..]), multiset(s));
    }
  }

  lemma Cancel<T>(a: multiset<T>, b: multiset<T>, c: multiset<T>)
    requires a + c == b + c
    ensures a == b
  {
    forall x
      ensures a[x] == b[x]
    {
      assert (a + c)[x] == (b + c)[x];
    }
  }

  /** One element leaves one of the lists. */
  lemma SumLoses<T>(lists: seq<seq<T>>, i: nat, s: seq<T>, x: T)
    requires i < |lists| && multiset(lists[i]) == multiset(s) + multiset{x}
    ensures Sum(lists) == Sum(lists[i := s]) + multiset{x}
  {
    SumUpdate(lists, i, s);
    assert (Sum(lists[i := s]) + multiset{x}) + multiset(s) == Sum(lists[i := s]) + multiset(lists[i]);
    Cancel(Sum(lists[i := s]) + multiset{x}, Sum(lists), multiset(s));
  }

  /** One element joins one of the lists, at the end. */
  lemma SumGains<T>(lists: seq<seq<T>>, i: nat, x: T)
    requires i < |lists|
    ensures Sum(lists[i := lists[i] + [x]]) == Sum(lists) + multiset{x}
  {
    var lists' := lists[i := lists[i] + [x]];
    SumLoses(lists', i, lists[i], x);
    assert lists'[i := lists[i]] == lists;
  }

  /** An item moves from one list to the end of another. */
  lemma SumMoves<T>(from: seq<seq<T>>, to: seq<seq<T>>, i: nat, rest: seq<T>, x: T)
    requires i < |from| && i < |to| && multiset(from[i]) == multiset(rest) + multiset{x}
    ensures Sum(from[i := rest]) + Sum(to[i := to[i] + [x]]) == Sum(from) + Sum(to)
  {
    SumLoses(from, i, rest, x);
    SumGains(to, i, x);
  }

  /** A free item is taken into a list. */
  lemma SumTakes<T>(free: seq<T>, lists: seq<seq<T>>, i: nat)
    requires i < |lists| && free != []
    ensures multiset(free[1..]) + Sum(lists[i := lists[i] + [free[0]]]) == multiset(free) + Sum(lists)
  {
    PopFront(free);
    SumGains(lists, i, free[0]);
  }

  /** An item leaves a list and is free again. */
  lemma SumReturns<T>(free: seq<T>, lists: seq<seq<T>>, i: nat, x: T)
    requires i < |lists| && x in lists[i]
    ensures multiset([x] + free) + Sum(lists[i := Remove(lists[i], x)]) == multiset(free) + Sum(lists)
  {
    RemoveBag(lists[i], x);
    SumLoses(lists, i, Remove(lists[i], x), x);
  }

  lemma {:induction false} SumContains<T>(lists: seq<seq<T>>, i: nat)
    requires i < |lists|
    ensures multiset(lists[i]) <= Sum(lists)
  {
    if i > 0 {
      SumContains(lists[1..], i - 1);
    }
  }

  lemma {:induction false} SumMember<T>(lists: seq<seq<T>>, x: T) returns (i: nat)
    requires x in Sum(lists)
    ensures i < |lists| && x in lists[i]
  {
    if x in lists[0] {
      i := 0;
    } else {
      i := SumMember(lists[1..], x);
      i := i + 1;
    }
  }

  /** An element of two of the lists is counted twice. */
  lemma SumCountsBoth<T>(lists: seq<seq<T>>, i: nat, j: nat, x: T)
    requires i < |lists| && j < |lists| && i != j
    requires x in lists[i] && x in lists[j]
    ensures Sum(lists)[x] >= 2
  {
    var lists' := lists[i := []];
    SumUpdate(lists, i, []);
    SumContains(lists', j);
    assert multiset(lists[i])[x] >= 1 && multiset(lists'[j])[x] >= 1;
    assert (Sum(lists') + multiset(lists[i]))[x] == Sum(lists)[x];
  }

  lemma {:induction false} SumEmpty<T>(lists: seq<seq<T>>)
    requires forall i :: 0 <= i < |lists| ==> lists[i] == []
    ensures Sum(lists) == multiset{}
  {
    if lists != [] {
      assert forall i :: 0 <= i < |lists[1..]| ==> lists[1..][i] == lists[i + 1];
      SumEmpty(lists[1..]);
    }
  }

  lemma {:induction false} BagNoDuplicates<T>(s: seq<T>)
    requires forall x :: x in s ==> multiset(s)[x] <= 1
    ensures NoDuplicates(s)
  {
    forall i, j | 0 <= i < j < |s|
      ensures s[i] != s[j]
    {
      SplitBag(s, j);
      assert s[i] in s[..j];
      assert s[j] in s[j..];
      assert multiset(s)[s[j]] == multiset(s[..j])[s[j]] + multiset(s[j..])[s[j]];
    }
  }

  lemma {:induction false} RemoveAppended<T>(l: seq<T>, x: T)
    requires x !in l
    ensures Remove(l + [x], x) == l
  {
    if l != [] {
      RemoveAppended(l[1..], x);
      assert (l + [x])[1..] == l[1..] + [x];
      assert l == [l[0]] + l[1..];
    }
  }

  lemma RemoveNoDuplicates<T>(l: seq<T>, x: T)
    requires NoDuplicates(l)
    ensures NoDuplicates(Remove(l, x))
  {
    if x in l {
      var k := RemoveSplits(l, x);
    } else {
      RemoveAbsent(l, x);
    }
  }

  lemma RemovesOne<T>(l: seq<T>, x: T)
    requires x in l
    ensures WithoutOne(l, Remove(l, x), x)
  {
    var k := RemoveSplits(l, x);
  }

  /** An element of a list without duplicates is gone after its removal. */
  lemma RemovedIsGone<T>(l: seq<T>, x: T)
    requires NoDuplicates(l) && x in l
    ensures |Remove(l, x)| == |l| - 1
    ensures forall y :: y in Remove(l, x) <==> y in l && y != x
  {
    var k := RemoveSplits(l, x);
    assert l == l[..k] + [x] + l[k + 1..];
  }

  /** Taking one element out of a bag and out of the list that covers the bag. */
  lemma CoverWithout<T>(bag: multiset<T>, rest: multiset<T>, l: seq<T>, x: T)
    requires bag <= multiset(l) && bag == rest + multiset{x}
    ensures x in l && rest <= multiset(Remove(l, x))
  {
    assert bag[x] >= 1 && multiset(l)[x] >= 1;
    RemoveBag(l, x);
    var l' := multiset(Remove(l, x));
    forall y
      ensures rest[y] <= l'[y]
    {
      assert bag[y] == rest[y] + multiset{x}[y] && multiset(l)[y] == l'[y] + multiset{x}[y];
      assert bag[y] <= multiset(l)[y];
    }
  }

  /** The blocks first..n-1 in order: a freshly initialised pool, less what was taken. */
  ghost predicate AllOf(free: seq<int>, first: int, n: int) {
    |free| == n - first && forall i :: 0 <= i < |free| ==> free[i] == first + i
  }

  lemma AllOfExactly(free: seq<int>, first: int, n: int, x: int)
    requires 0 <= first <= n && AllOf(free, first, n)
    ensures multiset(free)[x] == if first <= x < n then 1 else 0
  {
    if first <= x < n {
      var front, back := free[..x - first], free[x - first + 1..];
      assert free == front + [x] + back;
      assert x !in front && x !in back;
      assert multiset(free) == multiset(front) + multiset{x} + multiset(back);
    } else {
      assert x !in free;
    }
  }

  lemma AllOfBag(free: seq<int>, first: int, n: int)
    requires 0 <= first <= n && AllOf(free, first, n)
    ensures forall x :: multiset(free)[x] == if first <= x < n then 1 else 0
  {
    forall x
      ensures multiset(free)[x] == if first <= x < n then 1 else 0
    {
      AllOfExactly(free, first, n, x);
    }
  }

  /** In a pool whose blocks are each in one place, the lists overlap neither each other nor the free list. */
  lemma ListsApart<T>(free: seq<T>, lists: seq<seq<T>>, i: nat)
    requires i < |lists| && forall x :: (multiset(free) + Sum(lists))[x] <= 1
    ensures NoDuplicates(free) && NoDuplicates(lists[i])
    ensures forall x :: x in lists[i] ==> x !in free
    ensures forall j, x :: 0 <= j < |lists| && j != i && x in lists[i] ==> x !in lists[j]
  {
    SumContains(lists, i);
    forall x
      ensures multiset(free)[x] + multiset(lists[i])[x] <= 1
      ensures x in lists[i] ==> x !in free
    {
      assert (multiset(free) + Sum(lists))[x] <= 1;
      assert x in lists[i] <==> multiset(lists[i])[x] > 0;
      assert x in free <==> multiset(free)[x] > 0;
    }
    BagNoDuplicates(free);
    BagNoDuplicates(lists[i]);
    forall j, x | 0 <= j < |lists| && j != i && x in lists[i]
      ensures x !in lists[j]
    {
      assert (multiset(free) + Sum(lists))[x] <= 1;
      if x in lists[j] {
        SumCountsBoth(lists, i, j, x);
      }
    }
  }
}
