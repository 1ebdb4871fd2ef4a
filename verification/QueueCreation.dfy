/** How disastrOS_mqopen.c threads the queues of a new message queue: lines 95-110, on the heap.
    Every queue is inserted into mq->queues behind messageQueues_list.last, an item of another list. */
module QueueCreation {
  import opened Bags
  import opened LinkedLists

  ghost function Reverse<T>(s: seq<T>): (r: seq<T>)
    ensures |r| == |s| && forall i :: 0 <= i < |s| ==> r[i] == s[|s| - 1 - i]
  {
    if s == [] then [] else Reverse(s[1..]) + [s[0]]
  }

  /** Following next from the cursor visits exactly these items, then null. */
  ghost predicate Walk(cursor: ListItem?, items: seq<ListItem>)
    reads items
  {
    && cursor == At(items, 0)
    && forall i {:trigger items[i].next} :: 0 <= i < |items| ==> items[i].next == At(items, i + 1)
  }

  /** QueueList_byPriority and MessageQueueList_byId: the first item on the walk whose key matches. */
  method FindByKey(head: ListHead, key: int, ghost walk: seq<ListItem>) returns (r: ListItem?)
    requires Walk(head.first, walk)
    ensures r == null <==> forall x :: x in walk ==> x.key != key
    ensures r != null ==> r.key == key && exists i :: 0 <= i < |walk| && walk[i] == r
                                                     && forall j :: 0 <= j < i ==> walk[j].key != key
  {
    var aux := head.first;
    ghost var i := 0;
    while aux != null
      invariant 0 <= i <= |walk| && aux == At(walk, i)
      invariant forall j :: 0 <= j < i ==> walk[j].key != key
      decreases |walk| - i
    {
      if aux.key == key {
        return aux;
      }
      aux := aux.next;
      i := i + 1;
    }
    return null;
  }

  lemma {:induction false} ReverseSnoc<T>(s: seq<T>, x: T)
    ensures Reverse(s + [x]) == [x] + Reverse(s)
  {
    if s != [] {
      ReverseSnoc(s[1..], x);
      assert (s + [x])[1..] == s[1..] + [x];
    }
  }

  /** What the creation loop leaves behind once i queues are inserted, when messageQueues_list was empty. */
  ghost predicate Threaded(queues: ListHead, nodes: seq<ListItem>, i: nat)
    requires i <= |nodes|
    reads queues, queues.items
  {
    queues.Valid() && queues.items == Reverse(nodes[..i])
  }

  /** The same when messageQueues_list ended in `tail`. */
  ghost predicate Misplaced(queues: ListHead, tail: ListItem, nodes: seq<ListItem>, i: nat)
    requires i <= |nodes|
    reads queues, tail, nodes
  {
    && queues.first == null && queues.items == [] && queues.size == i
    && (i > 0 ==> queues.last == nodes[0])
    && tail.next == At(nodes[..i], i - 1)
    && forall j {:trigger nodes[j].next} :: 0 <= j < i ==> nodes[j].next == At(nodes, j - 1)
  }

  /** One turn of the loop, `pred` being messageQueues_list.last. With that list empty the queue goes
      to the front; otherwise it is threaded right behind the last message queue and never becomes
      the first of its own list. */
  method InsertQueue(queues: ListHead, pred: ListItem?, nodes: seq<ListItem>, i: nat)
    requires i < |nodes| && NoDuplicates(nodes) && pred !in nodes
    requires !nodes[i].Linked()
    requires pred == null ==> Threaded(queues, nodes, i)
    requires pred != null ==> Misplaced(queues, pred, nodes, i)
    modifies queues, pred, nodes[..i + 1]
    ensures pred == null ==> Threaded(queues, nodes, i + 1)
    ensures pred != null ==> Misplaced(queues, pred, nodes, i + 1)
  {
    assert forall x :: x in nodes[..i] ==> x != nodes[i] && x in nodes[..i + 1];
    assert nodes[..i + 1] == nodes[..i] + [nodes[i]];
    if pred == null {
      ReverseSnoc(nodes[..i], nodes[i]);
      assert forall x :: x in Reverse(nodes[..i]) ==> x in nodes[..i];
      assert queues.first == At(queues.items, 0);
    }
    var r := queues.Insert(pred, nodes[i]);
    assert pred == null ==> queues.items == [nodes[i]] + old(queues.items);
  }

  lemma NoneInserted(mqList: ListHead, queues: ListHead, nodes: seq<ListItem>)
    requires mqList.Valid() && queues.Valid() && queues.items == []
    ensures Threaded(queues, nodes, 0)
    ensures mqList.items != [] ==> mqList.last != null && Misplaced(queues, mqList.last, nodes, 0)
    ensures mqList.items == [] ==> mqList.last == null
    ensures mqList.last != null ==> mqList.last in mqList.items
  {
  }

  /** The loop. */
  method InsertQueues(mqList: ListHead, queues: ListHead, nodes: seq<ListItem>)
    requires mqList.Valid() && queues.Valid() && queues.items == [] && mqList != queues
    requires NoDuplicates(nodes)
    requires forall q :: q in nodes ==> !q.Linked() && q !in mqList.items
    modifies queues, nodes, mqList.last
    ensures old(mqList.items) == [] ==> Threaded(queues, nodes, |nodes|)
    ensures old(mqList.items) != [] ==> Misplaced(queues, mqList.last, nodes, |nodes|)
    ensures forall x :: x in mqList.items && x != mqList.last ==> unchanged(x)
  {
    hide Threaded, Misplaced;
    NoneInserted(mqList, queues, nodes);
    var i := 0;
    while i < |nodes|
      invariant 0 <= i <= |nodes|
      invariant mqList.last == null ==> Threaded(queues, nodes, i)
      invariant mqList.last != null ==> Misplaced(queues, mqList.last, nodes, i)
      invariant forall j :: i <= j < |nodes| ==> !nodes[j].Linked()
      invariant forall x :: x in mqList.items && x != mqList.last ==> unchanged(x)
    {
      InsertQueue(queues, mqList.last, nodes, i);
      i := i + 1;
    }
  }

  /** Lines 95-110: the queues, then the message queue itself at the end of messageQueues_list.
      With that list empty both lists come out well formed, the queues in decreasing class order.
      Otherwise the new message queue has no first queue, and messageQueues_list, followed by next,
      runs on from the new message queue into its queues, while its last item stays the old one. */
  method CreateMessageQueue(mqList: ListHead, queues: ListHead, nodes: seq<ListItem>, mq: ListItem)
    requires mqList.Valid() && queues.Valid() && queues.items == [] && mqList != queues
    requires nodes != [] && NoDuplicates(nodes) && mq !in nodes
    requires forall q :: q in nodes ==> !q.Linked() && q !in mqList.items
    requires !mq.Linked() && mq !in mqList.items
    modifies mqList, queues, nodes, mq, mqList.last
    ensures old(mqList.items) == [] ==>
              && queues.Valid() && queues.items == Reverse(nodes)
              && mqList.Valid() && mqList.items == [mq]
    ensures old(mqList.items) != [] ==>
              && queues.first == null && queues.size == |nodes|
              && Walk(mqList.first, old(mqList.items) + [mq] + Reverse(nodes))
              && mqList.last == old(mqList.last) && mqList.size == old(mqList.size) + 1
  {
    InsertQueues(mqList, queues, nodes);
    ghost var was := mqList.items;
    ghost var n := |nodes|;
    assert nodes[..n] == nodes;
    assert was != [] ==> mqList.last == was[|was| - 1] && mqList.last.next == nodes[n - 1];
    var r := mqList.Insert(mqList.last, mq);
    if was == [] {
      assert mqList.items == [mq];
    } else {
      assert forall j :: 0 <= j < n - 1 ==> nodes[j] != nodes[n - 1] && nodes[j] != mq && nodes[j] !in was;
      assert forall j {:trigger nodes[j].next} :: 0 <= j < n ==> nodes[j].next == At(nodes, j - 1);
      forall i {:trigger was[i].next} | 0 <= i < |was| - 1
        ensures was[i].next == was[i + 1]
      {
        assert was[i] in was && was[i] != was[|was| - 1] && was[i] != nodes[n - 1];
        assert old(was[i].next) == was[i + 1];
      }
      assert was[|was| - 1].next == mq && mq.next == nodes[n - 1];
      WalkOn(was, mq, nodes);
    }
  }

  /** The three stretches joined. */
  lemma WalkOn(was: seq<ListItem>, mq: ListItem, nodes: seq<ListItem>)
    requires was != [] && nodes != []
    requires forall i {:trigger was[i].next} :: 0 <= i < |was| - 1 ==> was[i].next == was[i + 1]
    requires was[|was| - 1].next == mq && mq.next == nodes[|nodes| - 1]
    requires forall j {:trigger nodes[j].next} :: 0 <= j < |nodes| ==> nodes[j].next == At(nodes, j - 1)
    ensures Walk(was[0], was + [mq] + Reverse(nodes))
  {
    hide Reverse;
    var front := was + [mq];
    var walk := front + Reverse(nodes);
    forall i {:trigger walk[i].next} | 0 <= i < |walk|
      ensures walk[i].next == At(walk, i + 1)
    {
      if i > |was| {
        WalkOnReversed(front, nodes, i - |was| - 1);
      } else {
        WalkOnFront(was, mq, Reverse(nodes), i);
      }
    }
  }

  lemma WalkOnFront(was: seq<ListItem>, mq: ListItem, rest: seq<ListItem>, i: nat)
    requires was != [] && rest != [] && i <= |was|
    requires i < |was| - 1 ==> was[i].next == was[i + 1]
    requires was[|was| - 1].next == mq && mq.next == rest[0]
    ensures (was + [mq] + rest)[i].next == At(was + [mq] + rest, i + 1)
  {
    var front := was + [mq];
    assert (front + rest)[i] == front[i];
    assert (front + rest)[i + 1] == if i < |was| then front[i + 1] else rest[0];
  }

  lemma WalkOnReversed(front: seq<ListItem>, nodes: seq<ListItem>, i: nat)
    requires i < |nodes|
    requires forall j {:trigger nodes[j].next} :: 0 <= j < |nodes| ==> nodes[j].next == At(nodes, j - 1)
    ensures var walk := front + Reverse(nodes);
            |walk| == |front| + |nodes| && walk[|front| + i].next == At(walk, |front| + i + 1)
  {
    var walk, j := front + Reverse(nodes), |nodes| - 1 - i;
    assert walk[|front| + i] == nodes[j];
    if j > 0 {
      assert walk[|front| + i + 1] == nodes[j - 1];
    }
  }

  /** QueueList_byPriority finds each class 0..priority of a new message queue if and only if
      messageQueues_list was empty when it was created; otherwise it finds none of them. */
  method ProbeNewMessageQueue(mqList: ListHead, queues: ListHead, nodes: seq<ListItem>, mq: ListItem, priority: nat)
    returns (q: ListItem?)
    requires mqList.Valid() && queues.Valid() && queues.items == [] && mqList != queues
    requires priority < |nodes| && NoDuplicates(nodes) && mq !in nodes
    requires forall q :: q in nodes ==> !q.Linked() && q !in mqList.items
    requires !mq.Linked() && mq !in mqList.items
    requires forall i :: 0 <= i < |nodes| ==> nodes[i].key == i
    modifies mqList, queues, nodes, mq, mqList.last
    ensures q != null <==> old(mqList.items) == []
    ensures q != null ==> q == nodes[priority]
  {
    ghost var wasEmpty := mqList.items == [];
    CreateMessageQueue(mqList, queues, nodes, mq);
    ghost var walk := if wasEmpty then Reverse(nodes) else [];
    assert forall i :: 0 <= i < |walk| ==> walk[i] == nodes[|nodes| - 1 - i];
    assert wasEmpty ==> nodes[priority] == walk[|nodes| - 1 - priority];
    q := FindByKey(queues, priority, walk);
  }

  /** After a creation in a non-empty list, MessageQueueList_byId runs on into the queues: looking for an id that
      no message queue has, but that is one of the classes 0..priority, finds the queue of that class. */
  method LookupRunsOn(mqList: ListHead, queues: ListHead, nodes: seq<ListItem>, mq: ListItem, id: nat)
    returns (r: ListItem?)
    requires mqList.Valid() && queues.Valid() && queues.items == [] && mqList != queues && mqList.items != []
    requires id < |nodes| && NoDuplicates(nodes) && mq !in nodes
    requires forall q :: q in nodes ==> !q.Linked() && q !in mqList.items
    requires !mq.Linked() && mq !in mqList.items
    requires forall i :: 0 <= i < |nodes| ==> nodes[i].key == i
    requires mq.key != id && forall x :: x in mqList.items ==> x.key != id
    modifies mqList, queues, nodes, mq, mqList.last
    ensures r == nodes[id] && queues.first == null
  {
    ghost var walk := mqList.items + [mq] + Reverse(nodes);
    KeyOnWalk(mqList.items + [mq], nodes, id);
    CreateMessageQueue(mqList, queues, nodes, mq);
    r := FindByKey(mqList, id, walk);
  }

  /** The only item with that key on the walk. */
  lemma KeyOnWalk(front: seq<ListItem>, nodes: seq<ListItem>, id: nat)
    requires id < |nodes| && forall i :: 0 <= i < |nodes| ==> nodes[i].key == i
    requires forall x :: x in front ==> x.key != id
    ensures nodes[id] in front + Reverse(nodes)
    ensures forall x :: x in front + Reverse(nodes) && x.key == id ==> x == nodes[id]
  {
    hide Reverse;
    var back := Reverse(nodes);
    assert back[|nodes| - 1 - id] == nodes[id];
    forall x | x in back && x.key == id
      ensures x == nodes[id]
    {
      KeyInReverse(nodes, x);
    }
  }

  lemma KeyInReverse(nodes: seq<ListItem>, x: ListItem)
    requires x in Reverse(nodes) && forall i :: 0 <= i < |nodes| ==> nodes[i].key == i
    ensures 0 <= x.key < |nodes| && x == nodes[x.key]
  {
    hide Reverse;
    var i :| 0 <= i < |Reverse(nodes)| && Reverse(nodes)[i] == x;
    assert x == nodes[|nodes| - 1 - i];
  }

  // ---- on real items

  /** A message queue with id 7 is in the list already when one with id 8 and the classes 0 and 1 is created: class 0
      of it is not found, and the lookup of message queue 1, which nobody has created, finds its queue of class 1. */
  method SecondMessageQueue() returns (missing: ListItem?, wrong: ListItem?, queue1: ListItem)
    ensures missing == null && wrong == queue1
  {
    var mqList := new ListHead();
    var queues := new ListHead();
    var mq7 := new ListItem(7);
    var mq8 := new ListItem(8);
    var queue0 := new ListItem(0);
    queue1 := new ListItem(1);
    var r := mqList.Insert(null, mq7);
    assert mqList.items == [mq7];
    wrong := LookupRunsOn(mqList, queues, [queue0, queue1], mq8, 1);
    missing := FindByKey(queues, 0, []);
  }
}
