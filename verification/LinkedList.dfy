/** linked_list.c: intrusive doubly linked lists, on the heap. `items` is the sequence a well-formed list stands for. */
module LinkedLists {
  import opened Bags

  class ListItem {
    var prev: ListItem?
    var next: ListItem?
    /** The int the enclosing struct keeps right behind its list header: Queue.priority, MessageQueue.id. */
    const key: int

    constructor (key: int)
      ensures prev == null && next == null && this.key == key
    {
      this.key := key;
      prev, next := null, null;
    }

    predicate Linked()
      reads this
    {
      prev != null || next != null
    }
  }

  ghost function At(items: seq<ListItem>, i: int): ListItem? {
    if 0 <= i < |items| then items[i] else null
  }

  /** Where the source puts an item inserted after prev: at the front when prev is null. */
  ghost function Place(items: seq<ListItem>, prev: ListItem?): (k: nat)
    ensures prev in items ==> 0 < k <= |items| && items[k - 1] == prev
    ensures prev !in items ==> k == 0
  {
    if prev in items then
      var i :| 0 <= i < |items| && items[i] == prev;
      i + 1
    else 0
  }

  ghost function Splice(items: seq<ListItem>, prev: ListItem?, item: ListItem): seq<ListItem> {
    var k := Place(items, prev);
    items[..k] + [item] + items[k..]
  }

  /** Positions tell items apart. */
  lemma PositionsDiffer(items: seq<ListItem>, k: int, x: ListItem?)
    requires NoDuplicates(items) && x == At(items, k)
    ensures forall j :: 0 <= j < |items| && j != k ==> items[j] != x
  {
  }

  lemma SpliceEnds(items: seq<ListItem>, k: nat, item: ListItem)
    requires k <= |items|
    ensures At(items[..k] + [item] + items[k..], 0) == if k == 0 then item else At(items, 0)
    ensures At(items[..k] + [item] + items[k..], |items|) == if k == |items| then item else At(items, |items| - 1)
  {
  }

  lemma SpliceNoDuplicates(items: seq<ListItem>, prev: ListItem?, item: ListItem)
    requires NoDuplicates(items) && item !in items
    ensures NoDuplicates(Splice(items, prev, item))
  {
  }

  lemma SpliceHas(items: seq<ListItem>, prev: ListItem?, item: ListItem)
    ensures item in Splice(items, prev, item)
  {
    assert Splice(items, prev, item)[Place(items, prev)] == item;
  }

  /** Detaching what was just spliced in gives the old sequence back. */
  lemma RemoveUndoesSplice(items: seq<ListItem>, prev: ListItem?, item: ListItem)
    requires item !in items
    ensures Remove(Splice(items, prev, item), item) == items
  {
    var k := Place(items, prev);
    var spliced := Splice(items, prev, item);
    assert spliced[k] == item;
    var j := RemoveSplits(spliced, item);
    assert forall i :: 0 <= i < k ==> spliced[i] == items[i];
    assert forall i :: 0 <= i < j ==> spliced[i] == spliced[..j][i];
    assert j == k;
    assert spliced[..k] == items[..k] && spliced[k + 1..] == items[k..];
    assert items[..k] + items[k..] == items;
  }

  lemma RemovalEnds(items: seq<ListItem>, k: nat)
    requires k < |items| && NoDuplicates(items)
    ensures At(items, 0) == items[k] <==> k == 0
    ensures At(items, |items| - 1) == items[k] <==> k == |items| - 1
    ensures NoDuplicates(items[..k] + items[k + 1..])
    ensures At(items[..k] + items[k + 1..], 0) == At(items, if k == 0 then 1 else 0)
    ensures At(items[..k] + items[k + 1..], |items| - 2) ==
            At(items, if k == |items| - 1 then |items| - 2 else |items| - 1)
  {
  }

  class ListHead {
    var first: ListItem?
    var last: ListItem?
    var size: int
    ghost var items: seq<ListItem>

    ghost predicate Valid()
      reads this, items
    {
      && EndsAgree()
      && NoDuplicates(items)
      && Links()
    }

    ghost predicate Links()
      reads this, items
    {
      && (forall i {:trigger items[i].prev} :: 0 <= i < |items| ==> items[i].prev == At(items, i - 1))
      && (forall i {:trigger items[i].next} :: 0 <= i < |items| ==> items[i].next == At(items, i + 1))
    }

    /** The item an insertion after prev would push away; with prev null, the first one. */
    function After(prev: ListItem?): ListItem?
      reads this, prev
    {
      if prev != null then prev.next else first
    }

    /** The two ends and the size agree with the items. */
    ghost predicate EndsAgree()
      reads this
    {
      size == |items| && first == At(items, 0) && last == At(items, |items| - 1)
    }

    /** List_init */
    constructor ()
      ensures Valid() && items == []
    {
      first, last, size := null, null, 0;
      items := [];
    }

    method Find(item: ListItem) returns (r: ListItem?)
      requires Valid()
      ensures r == if item in items then item else null
    {
      var aux := first;
      ghost var i := 0;
      while aux != null
        invariant 0 <= i <= |items| && aux == At(items, i)
        invariant item !in items[..i]
        decreases |items| - i
      {
        if aux == item {
          return item;
        }
        assert items[..i + 1] == items[..i] + [items[i]];
        aux := aux.next;
        i := i + 1;
      }
      return null;
    }

    /** List_insert's pointer surgery, once the two neighbours are known. */
    method LinkBetween(prev: ListItem?, next: ListItem?, item: ListItem)
      requires !item.Linked() && (item == prev ==> next == null)
      modifies this, item, prev, next
      ensures items == old(items) && size == old(size) + 1
      ensures first == if prev == null then item else old(first)
      ensures last == if next == null then item else old(last)
      ensures item !in {prev, next} ==> item.prev == prev && item.next == next
      ensures item in {prev, next} ==> item.prev == item && item.next == item
      ensures prev != null ==> prev.next == item
      ensures prev != null && prev !in {next, item} ==> prev.prev == old(prev.prev)
      ensures next != null ==> next.prev == item
      ensures next != null && next != item && next != prev ==> next.next == old(next.next)
    {
      if prev != null {
        item.prev := prev;
        prev.next := item;
      }
      if next != null {
        item.next := next;
        next.prev := item;
      }
      if prev == null {
        first := item;
      }
      if next == null {
        last := item;
      }
      size := size + 1;
    }

    /** The pointer surgery for any arguments, and the splice it amounts to when prev is null or a
        member and item is not one. `prev` may also belong to another list, or be the item itself: then
        this list's items stay what they were, but its head no longer agrees with them. */
    method Insert(prev: ListItem?, item: ListItem) returns (r: ListItem?)
      modifies this, item, prev, After(prev)
      ensures r == if old(item.Linked()) then null else item
      ensures r == null ==> unchanged(this, item) && (prev != null ==> unchanged(prev))
                            && (old(After(prev)) != null ==> unchanged(old(After(prev))))
      ensures r != null ==> size == old(size) + 1
      ensures r != null ==> first == if prev == null then item else old(first)
      ensures r != null ==> last == if old(After(prev)) == null then item else old(last)
      ensures r != null && item !in {prev, old(After(prev))} ==> item.prev == prev && item.next == old(After(prev))
      ensures r != null && item in {prev, old(After(prev))} ==> item.prev == item && item.next == item
      ensures r != null && prev != null ==> prev.next == item
      ensures r != null && prev != null && prev !in {item, old(After(prev))} ==> prev.prev == old(prev.prev)
      ensures r != null && old(After(prev)) != null ==> old(After(prev)).prev == item
      ensures r != null && old(After(prev)) !in {null, item, prev} ==> old(After(prev)).next == old(After(prev).next)
      ensures r != null && old(Valid()) && item !in old(items) && (prev == null || prev in old(items)) ==>
                Valid() && items == Splice(old(items), prev, item)
      ensures r != null && prev != null && prev !in old(items) ==> items == old(items)
    {
      if item.next != null || item.prev != null {
        return null;
      }
      ghost var wf := Valid() && item !in items;
      ghost var k: int := Place(items, prev);
      var next := if prev != null then prev.next else first;
      assert wf && (prev == null || prev in items) ==> prev == At(items, k - 1) && next == At(items, k);
      LinkBetween(prev, next, item);
      if wf && (prev == null || prev in items) {
        items := Splice(items, prev, item);
        SpliceEnds(old(items), k, item);
        SpliceNoDuplicates(old(items), prev, item);
        hide Splice, NoDuplicates;
        SpliceLinks(k);
      }
      return item;
    }

    /** List_insert at the end of the list. */
    method Append(item: ListItem)
      requires Valid() && item !in items && !item.Linked()
      modifies this, item, last
      ensures Valid() && items == old(items) + [item]
    {
      SpliceLast(items, item);
      assert last != null ==> last == items[|items| - 1] && last.next == null;
      hide Splice;
      var r := Insert(last, item);
    }

    /** What List_detach's pointer surgery does, whatever the item is linked to. */
    twostate predicate Bypassed(item: ListItem)
      reads *
    {
      && size == old(size) - 1
      && first == (if item == old(first) then old(item.next) else old(first))
      && last == (if item == old(last) then old(item.prev) else old(last))
      && !item.Linked()
      && (old(item.prev) != null && old(item.prev) != item ==> old(item.prev).next == old(item.next))
      && (old(item.next) != null && old(item.next) != item ==> old(item.next).prev == old(item.prev))
      && (old(item.prev) != null && old(item.prev) != old(item.next) && old(item.prev) != item ==>
            old(item.prev).prev == old(item.prev.prev))
      && (old(item.next) != null && old(item.prev) != old(item.next) && old(item.next) != item ==>
            old(item.next).next == old(item.next.next))
    }

    method Unlink(item: ListItem)
      modifies this, item, item.prev, item.next
      ensures items == old(items) && Bypassed(item)
    {
      var prev := item.prev;
      var next := item.next;
      if prev != null {
        prev.next := next;
      }
      if next != null {
        next.prev := prev;
      }
      if item == first {
        first := next;
      }
      if item == last {
        last := prev;
      }
      size := size - 1;
      item.next, item.prev := null, null;
    }

    /** Removal of a member: the sequence loses exactly that item, and the item comes out unlinked. */
    method Detach(item: ListItem) returns (r: ListItem)
      requires Valid() && item in items
      modifies this, item, item.prev, item.next
      ensures Valid() && items == Remove(old(items), item)
      ensures r == item && !item.Linked()
    {
      ghost var k := RemoveSplits(items, item);
      Unlink(item);
      items := items[..k] + items[k + 1..];
      assert Bypassed(old(items)[k]);
      hide Bypassed, NoDuplicates;
      assert forall x :: x in old(items) && x !in {item, old(item.prev), old(item.next)} ==>
                           x.prev == old(x.prev) && x.next == old(x.next);
      Removal(k);
      assert !item.Linked() by { RemovedUnlinked(k); }
      return item;
    }

    twostate lemma RemovedUnlinked(k: nat)
      requires k < |old(items)| && Bypassed(old(items)[k])
      ensures !old(items)[k].Linked()
    {
    }

    /** A well-formed list is well formed again after the removal. */
    twostate lemma Removal(k: nat)
      requires old(Valid()) && k < |old(items)| && Bypassed(old(items)[k])
      requires items == old(items)[..k] + old(items)[k + 1..]
      requires forall x :: x in old(items) && x !in {old(items)[k], old(items[k].prev), old(items[k].next)} ==>
                 x.prev == old(x.prev) && x.next == old(x.next)
      ensures Valid()
    {
      RemovalEnds(old(items), k);
      PositionsDiffer(old(items), k, old(items)[k]);
      PositionsDiffer(old(items), k - 1, old(items[k].prev));
      PositionsDiffer(old(items), k + 1, old(items[k].next));
      forall j | 0 <= j < |old(items)| && j != k
        ensures old(items)[j].next == if j == k - 1 then old(items[k].next) else old(items[j].next)
        ensures old(items)[j].prev == if j == k + 1 then old(items[k].prev) else old(items[j].prev)
      {
        assert old(items)[j] in old(items);
      }
      RemovalLinks(k);
    }

    /** The links are right again once the items around the splice point have been relinked. */
    twostate lemma SpliceLinks(k: nat)
      requires old(Valid()) && k <= |old(items)| && |items| == |old(items)| + 1
      requires items == old(items)[..k] + [items[k]] + old(items)[k..]
      requires items[k].prev == At(old(items), k - 1) && items[k].next == At(old(items), k)
      requires forall x :: x in old(items) ==> x.next == if x == items[k].prev then items[k] else old(x.next)
      requires forall x :: x in old(items) ==> x.prev == if x == items[k].next then items[k] else old(x.prev)
      ensures Links()
    {
      var was, now := old(items), items;
      PositionsDiffer(was, k - 1, now[k].prev);
      PositionsDiffer(was, k, now[k].next);
      forall i | 0 <= i < |now|
        ensures now[i].prev == At(now, i - 1) && now[i].next == At(now, i + 1)
      {
        if i != k {
          var j := if i < k then i else i - 1;
          assert now[i] == was[j];
        }
      }
    }

    /** The sequence determines the ends, the size and every link. */
    twostate lemma SameLinks()
      requires old(Valid()) && Valid() && items == old(items)
      ensures first == old(first) && last == old(last) && size == old(size)
      ensures forall x :: x in items ==> x.prev == old(x.prev) && x.next == old(x.next)
    {
      forall x | x in items
        ensures x.prev == old(x.prev) && x.next == old(x.next)
      {
        var i :| 0 <= i < |items| && items[i] == x;
      }
    }

    /** The links are right again once the neighbours of the removed item have been joined. */
    twostate lemma RemovalLinks(k: nat)
      requires old(Links()) && k < |old(items)|
      requires items == old(items)[..k] + old(items)[k + 1..]
      requires forall j :: 0 <= j < |old(items)| && j != k ==>
                 old(items)[j].next == if j == k - 1 then old(items[k].next) else old(items[j].next)
      requires forall j :: 0 <= j < |old(items)| && j != k ==>
                 old(items)[j].prev == if j == k + 1 then old(items[k].prev) else old(items[j].prev)
      ensures Links()
    {
      var was, now := old(items), items;
      forall i | 0 <= i < |now|
        ensures now[i].prev == At(now, i - 1) && now[i].next == At(now, i + 1)
      {
        var j := if i < k then i else i + 1;
        assert now[i] == was[j];
      }
    }
  }

  /** Detaching the item just inserted puts everything back: the ends, the size and every link. */
  method InsertThenDetach(h: ListHead, prev: ListItem?, item: ListItem)
    requires h.Valid() && item !in h.items && !item.Linked() && (prev == null || prev in h.items)
    modifies h, h.items, item
    ensures h.Valid() && h.items == old(h.items)
    ensures h.first == old(h.first) && h.last == old(h.last) && h.size == old(h.size)
    ensures forall x :: x in h.items ==> x.prev == old(x.prev) && x.next == old(x.next)
    ensures !item.Linked()
  {
    RemoveUndoesSplice(h.items, prev, item);
    SpliceHas(h.items, prev, item);
    assert prev == null ==> h.first == At(h.items, 0);
    hide Splice, NoDuplicates;
    var r := h.Insert(prev, item);
    r := h.Detach(item);
    h.SameLinks();
  }

  /** The guard of List_insert recognises a member exactly when the list has another one: a sole
      member is relinked to itself. */
  method InsertMemberAgain(h: ListHead, item: ListItem) returns (r: ListItem?)
    requires h.Valid() && item in h.items
    modifies h, h.items
    ensures r == null <==> |old(h.items)| >= 2
    ensures r == null ==> h.Valid() && h.items == old(h.items)
    ensures r != null ==> item.next == item && item.prev == item && h.size == 2 && h.first == item
  {
    ghost var i :| 0 <= i < |h.items| && h.items[i] == item;
    assert item.prev == At(h.items, i - 1) && item.next == At(h.items, i + 1);
    assert h.first == At(h.items, 0);
    r := h.Insert(null, item);
  }

  /** Inserted twice in an empty list, an item ends up linked to itself in a list of size 2. */
  method InsertTwice() returns (h: ListHead, item: ListItem)
    ensures h.size == 2 && h.first == item && item.next == item
  {
    h := new ListHead();
    item := new ListItem(0);
    var r := h.Insert(null, item);
    assert h.items == [item];
    r := InsertMemberAgain(h, item);
  }

  lemma SpliceLast(items: seq<ListItem>, item: ListItem)
    requires NoDuplicates(items)
    ensures Splice(items, At(items, |items| - 1), item) == items + [item]
  {
  }

  /** One turn of exit's reparenting loop, on the lists: the first child moves to the end of the other list. */
  method MoveFirst(from: ListHead, to: ListHead)
    requires from.Valid() && to.Valid() && from != to && from.items != []
    requires forall x :: x in from.items ==> x !in to.items
    modifies from, to, from.items, to.items
    ensures from.Valid() && from.items == old(from.items)[1..]
    ensures to.Valid() && to.items == old(to.items) + [old(from.items)[0]]
  {
    ghost var first := from.items[0];
    assert first.next == At(from.items, 1) && first.prev == null;
    assert first in from.items && (first.next != null ==> first.next in from.items);
    assert forall i :: 0 <= i < |to.items| ==> to.items[i] in to.items;
    var item := from.Detach(from.first);
    assert to.last != null ==> to.last in to.items;
    to.Append(item);
  }

  /** Halfway through, with i items moved, the two lists are still apart, and hold what they held together. */
  lemma MovedApart(f: seq<ListItem>, t: seq<ListItem>, i: nat)
    requires i <= |f| && NoDuplicates(f) && forall x :: x in f ==> x !in t
    ensures forall x :: x in f[i..] ==> x in f && x !in t + f[..i]
    ensures forall x :: x in t + f[..i] ==> x in t || x in f
    ensures i < |f| ==> f[i..][0] == f[i] && f[i..][1..] == f[i + 1..] && t + f[..i] + [f[i]] == t + f[..i + 1]
  {
  }

  /** The list part of exit's reparenting loop: all items move over, in order. */
  method MoveAll(from: ListHead, to: ListHead)
    requires from.Valid() && to.Valid() && from != to
    requires forall x :: x in from.items ==> x !in to.items
    modifies from, to, from.items, to.items
    ensures from.Valid() && from.items == []
    ensures to.Valid() && to.items == old(to.items) + old(from.items)
  {
    ghost var f, t, i := from.items, to.items, 0;
    while from.first != null
      invariant 0 <= i <= |f| && from.items == f[i..] && to.items == t + f[..i]
      invariant from.Valid() && to.Valid()
      decreases |f| - i
    {
      MovedApart(f, t, i);
      hide NoDuplicates;
      MoveFirst(from, to);
      i := i + 1;
    }
  }
}
