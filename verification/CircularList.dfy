// The intrusive doubly linked list of utilities/FreeRTOSV7.3.0/list.c, on the heap: a ring
// of items closed by the end marker, with an index for round-robin walks.
module CircularList {
  import SortedList

  // portMAX_DELAY for 32-bit ticks, the value of the end marker.
  const MAX_DELAY: int := 0xFFFF_FFFF

  // The order in which listGET_OWNER_OF_NEXT_ENTRY (include/list.h:214-226) will hand out
  // the items of a ring whose index is at position k.  Position 0 is the end marker, which
  // is skipped.
  function Walk<T>(ring: seq<T>, k: nat): seq<T>
    requires k < |ring|
  {
    ring[k + 1..] + ring[1..k + 1]
  }

  function InsertAt<T>(s: seq<T>, k: nat, x: T): (r: seq<T>)
    requires k <= |s|
    ensures |r| == |s| + 1
    ensures forall i :: 0 <= i < k ==> r[i] == s[i]
    ensures r[k] == x
    ensures forall i :: k < i < |r| ==> r[i] == s[i - 1]
  {
    s[..k] + [x] + s[k..]
  }

  function RemoveAt<T>(s: seq<T>, k: nat): (r: seq<T>)
    requires k < |s|
    ensures |r| == |s| - 1
    ensures forall i :: 0 <= i < k ==> r[i] == s[i]
    ensures forall i :: k <= i < |r| ==> r[i] == s[i + 1]
  {
    s[..k] + s[k + 1..]
  }

  ghost predicate NoDup<T>(s: seq<T>) {
    forall i, j :: 0 <= i < j < |s| ==> s[i] != s[j]
  }

  lemma NoDupAt<T>(s: seq<T>, k: nat)
    requires NoDup(s) && k < |s|
    ensures forall i :: 0 <= i < |s| && i != k ==> s[i] != s[k]
  {
  }

  lemma NoDupInsert<T>(s: seq<T>, k: nat, x: T)
    requires NoDup(s) && k <= |s| && x !in s
    ensures NoDup(InsertAt(s, k, x))
  {
  }

  lemma NoDupRemove<T>(s: seq<T>, k: nat)
    requires NoDup(s) && k < |s|
    ensures NoDup(RemoveAt(s, k))
  {
  }

  // An item put in right behind the index, which then moves onto it, is handed out last.
  lemma InsertedIsLast<T>(ring: seq<T>, k: nat, x: T)
    requires k < |ring|
    ensures Walk(InsertAt(ring, k + 1, x), k + 1) == Walk(ring, k) + [x]
  {
    var r := InsertAt(ring, k + 1, x);
    assert r[k + 2..] == ring[k + 1..];
    assert r[1..k + 2] == ring[1..k + 1] + [x];
  }

  // Removal takes the item out of the walk and leaves the order of the others alone; an
  // index that pointed at it moves one item back.
  lemma RemovedFromWalk<T>(ring: seq<T>, k: nat, p: nat)
    requires k < |ring| && 1 <= p < |ring|
    ensures var k' := if p <= k then k - 1 else k;
            Walk(RemoveAt(ring, p), k')
            == RemoveAt(Walk(ring, k), if p <= k then |ring| - k - 1 + p - 1 else p - k - 1)
  {
    var r := RemoveAt(ring, p);
    if p <= k {
      assert r[k..] == ring[k + 1..];
      assert r[1..k] == ring[1..p] + ring[p + 1..k + 1];
    } else {
      assert r[k + 1..] == ring[k + 1..p] + ring[p + 1..];
      assert r[1..k + 1] == ring[1..k + 1];
    }
  }

  // Moving the index on hands out the head of the walk and puts it last.
  lemma NextRotates<T>(ring: seq<T>, k: nat)
    requires k < |ring| && |ring| > 1
    ensures var k' := if k + 1 < |ring| then k + 1 else 1;
            && Walk(ring, k)[0] == ring[k']
            && Walk(ring, k') == Walk(ring, k)[1..] + [Walk(ring, k)[0]]
  {
    if k + 1 < |ring| {
      assert ring[1..k + 2] == ring[1..k + 1] + [ring[k + 1]];
    }
  }

  function Rotate<T>(w: seq<T>, n: nat): (r: seq<T>)
    requires w != []
    ensures |r| == |w|
  {
    if n == 0 then w else var v := Rotate(w, n - 1); v[1..] + [v[0]]
  }

  // Equal shares: in any |w| successive moves of the index every item is handed out
  // exactly once, in the order of the walk, and then the walk starts over.
  lemma {:induction false} EqualShares<T>(w: seq<T>, n: nat)
    requires w != [] && n <= |w|
    ensures Rotate(w, n) == w[n..] + w[..n]
    ensures n < |w| ==> Rotate(w, n)[0] == w[n]
    ensures n == |w| ==> Rotate(w, n) == w
  {
    if n > 0 {
      EqualShares(w, n - 1);
      RotateOnce(w, n - 1);
    }
  }

  lemma RotateOnce<T>(w: seq<T>, n: nat)
    requires n < |w|
    ensures var v := w[n..] + w[..n];
            v[1..] + [v[0]] == w[n + 1..] + w[..n + 1]
  {
    var v := w[n..] + w[..n];
    assert v[1..] == w[n + 1..] + w[..n];
    assert w[..n + 1] == w[..n] + [w[n]];
  }

  class ListItem {
    var xItemValue: int
    var pxNext: ListItem?
    var pxPrevious: ListItem?
    var pvOwner: nat
    var pvContainer: List?

    // vListInitialiseItem
    constructor (owner: nat, value: int)
      ensures pvOwner == owner && xItemValue == value && pvContainer == null
    {
      pvOwner, xItemValue, pvContainer, pxNext, pxPrevious := owner, value, null, null, null;
    }
  }

  // The position after k on the ring.
  function Succ<T>(r: seq<T>, k: nat): (j: nat)
    requires k < |r|
    ensures j < |r|
  {
    if k + 1 < |r| then k + 1 else 0
  }

  // The pointers between position i and its successor agree with the ring.
  ghost predicate LinkedAt(r: seq<ListItem>, i: nat)
    requires i < |r|
    reads r
  {
    r[i].pxNext == r[Succ(r, i)] && r[Succ(r, i)].pxPrevious == r[i]
  }

  ghost predicate Linked(r: seq<ListItem>)
    reads r
  {
    forall i :: 0 <= i < |r| ==> LinkedAt(r, i)
  }

  ghost predicate OwnedAt(r: seq<ListItem>, l: List, i: nat)
    requires i < |r|
    reads r
  {
    r[i].pvContainer == l && 0 <= r[i].xItemValue <= MAX_DELAY
  }

  ghost predicate Owned(r: seq<ListItem>, l: List)
    reads r
  {
    forall i :: 1 <= i < |r| ==> OwnedAt(r, l, i)
  }

  // The pointer writes that put x behind position k close the ring again.
  lemma Spliced(r: seq<ListItem>, k: nat, x: ListItem)
    requires k < |r| && (forall i :: 0 <= i < |r| && i != k ==> LinkedAt(r, i))
    requires x.pxNext == r[Succ(r, k)] && r[Succ(r, k)].pxPrevious == x
    requires x.pxPrevious == r[k] && r[k].pxNext == x
    ensures Linked(InsertAt(r, k + 1, x))
  {
    hide InsertAt;
    var q := InsertAt(r, k + 1, x);
    forall i | 0 <= i < |q| ensures LinkedAt(q, i) {
      if i < k {
        assert LinkedAt(r, i);
      } else if i > k + 1 {
        assert LinkedAt(r, i - 1);
      }
    }
  }

  // The pointer writes that take out the item at position p close the ring again.
  lemma Unlinked(r: seq<ListItem>, p: nat)
    requires 1 <= p < |r| && (forall i :: 0 <= i < |r| && i != p - 1 && i != p ==> LinkedAt(r, i))
    requires r[p - 1].pxNext == r[Succ(r, p)] && r[Succ(r, p)].pxPrevious == r[p - 1]
    ensures Linked(RemoveAt(r, p))
  {
    hide RemoveAt;
    var q := RemoveAt(r, p);
    forall i | 0 <= i < |q| ensures LinkedAt(q, i) {
      if i < p - 1 {
        assert LinkedAt(r, i);
      } else if i > p - 1 {
        assert LinkedAt(r, i + 1);
      }
    }
  }

  lemma OwnedInserted(r: seq<ListItem>, l: List, k: nat, x: ListItem)
    requires 1 <= k <= |r| && Owned(r, l) && x.pvContainer == l && 0 <= x.xItemValue <= MAX_DELAY
    ensures Owned(InsertAt(r, k, x), l)
  {
    hide InsertAt;
    var q := InsertAt(r, k, x);
    forall i | 1 <= i < |q| ensures OwnedAt(q, l, i) {
      if i != k { assert OwnedAt(r, l, if i < k then i else i - 1); }
    }
  }

  lemma OwnedRemoved(r: seq<ListItem>, l: List, p: nat)
    requires 1 <= p < |r| && (forall i :: 1 <= i < |r| && i != p ==> OwnedAt(r, l, i))
    ensures Owned(RemoveAt(r, p), l)
  {
    hide RemoveAt;
    var q := RemoveAt(r, p);
    forall i | 1 <= i < |q| ensures OwnedAt(q, l, i) {
      assert OwnedAt(r, l, if i < p then i else i + 1);
    }
  }

  // c lists the owners and values of the items of ring r, which starts with the end marker.
  ghost predicate Shows(r: seq<ListItem>, c: seq<SortedList.Item>)
    reads r
  {
    |r| == |c| + 1 && forall i :: 0 <= i < |c| ==> c[i] == SortedList.Item(r[i + 1].pvOwner, r[i + 1].xItemValue)
  }

  lemma InsertionPoint(r: seq<ListItem>, c: seq<SortedList.Item>, at: nat, v: int)
    requires Shows(r, c) && at < |r|
    requires forall j :: 1 <= j <= at ==> r[j].xItemValue <= v
    requires at + 1 < |r| ==> v < r[at + 1].xItemValue
    ensures SortedList.InsertIndex(c, v) == at
  {
    SortedList.InsertIndexUnique(c, v, at);
  }

  lemma ContentsInserted(r: seq<ListItem>, c: seq<SortedList.Item>, at: nat, x: ListItem, c': seq<SortedList.Item>)
    requires at < |r| && Shows(r, c) && Shows(InsertAt(r, at + 1, x), c')
    requires SortedList.InsertIndex(c, x.xItemValue) == at
    ensures c' == SortedList.Insert(c, SortedList.Item(x.pvOwner, x.xItemValue))
  {
    hide InsertAt, SortedList.InsertIndex;
    var q := InsertAt(r, at + 1, x);
    var e := SortedList.Insert(c, SortedList.Item(x.pvOwner, x.xItemValue));
    forall i | 0 <= i < |e| ensures c'[i] == e[i] {
      assert q[i + 1] == if i < at then r[i + 1] else if i == at then x else r[i];
    }
  }

  class List {
    const xListEnd: ListItem
    var pxIndex: ListItem
    var uxNumberOfItems: nat

    // The end marker followed by the items in list order, and the position of pxIndex.
    ghost var ring: seq<ListItem>
    ghost var index: nat

    ghost predicate Valid()
      reads this, ring
    {
      && |ring| >= 1 && ring[0] == xListEnd
      && NoDup(ring)
      && Linked(ring)
      && Owned(ring, this)
      && xListEnd.xItemValue == MAX_DELAY
      && uxNumberOfItems == |ring| - 1
      && index < |ring| && ring[index] == pxIndex
    }

    // Owners and values of the items, in list order.
    ghost function Contents(): (c: seq<SortedList.Item>)
      requires |ring| >= 1
      reads this, ring
      ensures Shows(ring, c)
    {
      seq(|ring| - 1, i requires 0 <= i < |ring| - 1 reads this, ring =>
        SortedList.Item(ring[i + 1].pvOwner, ring[i + 1].xItemValue))
    }

    // vListInitialise
    constructor ()
      ensures Valid() && fresh(xListEnd) && ring == [xListEnd] && index == 0
    {
      var end := new ListItem(0, MAX_DELAY);
      xListEnd, pxIndex, uxNumberOfItems := end, end, 0;
      ring, index := [end], 0;
      new;
      end.pxNext, end.pxPrevious := end, end;
    }

    // vListInsertEnd
    method InsertEnd(pxNewListItem: ListItem)
      requires Valid() && pxNewListItem !in ring && 0 <= pxNewListItem.xItemValue <= MAX_DELAY
      modifies this, ring`pxNext, ring`pxPrevious
      modifies pxNewListItem`pxNext, pxNewListItem`pxPrevious, pxNewListItem`pvContainer
      ensures Valid() && pxNewListItem.pvContainer == this
      ensures ring == InsertAt(old(ring), old(index) + 1, pxNewListItem) && index == old(index) + 1
      ensures Walk(ring, index) == old(Walk(ring, index)) + [pxNewListItem]
    {
      hide Walk, InsertAt, NoDup;
      ghost var r, k := ring, index;
      InsertedIsLast(r, k, pxNewListItem);
      assert LinkedAt(r, k);
      NoDupAt(r, k);
      NoDupAt(r, Succ(r, k));
      NoDupInsert(r, k + 1, pxNewListItem);
      var pxIndex0 := pxIndex;
      pxNewListItem.pxNext := pxIndex0.pxNext;
      pxNewListItem.pxPrevious := pxIndex;
      pxIndex0.pxNext.pxPrevious := pxNewListItem;
      pxIndex0.pxNext := pxNewListItem;
      pxIndex := pxNewListItem;
      pxNewListItem.pvContainer := this;
      uxNumberOfItems := uxNumberOfItems + 1;
      index, ring := k + 1, InsertAt(r, k + 1, pxNewListItem);
      forall i | 0 <= i < |r| && i != k ensures LinkedAt(r, i) {
        assert old(LinkedAt(r, i));
      }
      forall i | 1 <= i < |r| ensures OwnedAt(r, this, i) {
        assert old(OwnedAt(r, this, i));
      }
      Spliced(r, k, pxNewListItem);
      OwnedInserted(r, this, k + 1, pxNewListItem);
    }

    // The search of vListInsert: the item the new one goes behind.  The value of the end
    // marker would not stop the loop, so it is treated apart.
    method Seek(xValueOfInsertion: int) returns (pxIterator: ListItem, ghost at: nat)
      requires Valid() && 0 <= xValueOfInsertion <= MAX_DELAY
      ensures at < |ring| && ring[at] == pxIterator
      ensures SortedList.InsertIndex(Contents(), xValueOfInsertion) == at
      ensures pxIterator == xListEnd || pxIterator.xItemValue <= xValueOfInsertion
      ensures var next := pxIterator.pxNext;
              next == xListEnd || (next != null && xValueOfInsertion < next.xItemValue)
    {
      hide Walk, InsertAt, NoDup;
      if xValueOfInsertion == MAX_DELAY {
        at := |ring| - 1;
        assert LinkedAt(ring, at);
        pxIterator := xListEnd.pxPrevious;
        forall j | 1 <= j <= at ensures ring[j].xItemValue <= xValueOfInsertion { assert OwnedAt(ring, this, j); }
      } else {
        pxIterator := xListEnd;
        at := 0;
        assert LinkedAt(ring, 0);
        while pxIterator.pxNext.xItemValue <= xValueOfInsertion
          invariant 0 <= at < |ring| && ring[at] == pxIterator && LinkedAt(ring, at)
          invariant forall j :: 1 <= j <= at ==> ring[j].xItemValue <= xValueOfInsertion
          decreases |ring| - at
        {
          pxIterator := pxIterator.pxNext;
          at := at + 1;
          assert LinkedAt(ring, at);
        }
      }
      InsertionPoint(ring, Contents(), at, xValueOfInsertion);
    }

    // The pointer writes of vListInsert, behind the item at position at.
    method Link(pxIterator: ListItem, pxNewListItem: ListItem, ghost at: nat)
      requires Valid() && pxNewListItem !in ring && 0 <= pxNewListItem.xItemValue <= MAX_DELAY
      requires at < |ring| && ring[at] == pxIterator
      modifies this, ring`pxNext, ring`pxPrevious
      modifies pxNewListItem`pxNext, pxNewListItem`pxPrevious, pxNewListItem`pvContainer
      ensures Valid() && pxNewListItem.pvContainer == this && pxIndex == old(pxIndex)
      ensures ring == InsertAt(old(ring), at + 1, pxNewListItem)
    {
      hide Walk, InsertAt, NoDup;
      ghost var r := ring;
      assert LinkedAt(r, at);
      NoDupAt(r, at);
      NoDupAt(r, Succ(r, at));
      NoDupInsert(r, at + 1, pxNewListItem);
      pxNewListItem.pxNext := pxIterator.pxNext;
      pxNewListItem.pxNext.pxPrevious := pxNewListItem;
      pxNewListItem.pxPrevious := pxIterator;
      pxIterator.pxNext := pxNewListItem;
      pxNewListItem.pvContainer := this;
      uxNumberOfItems := uxNumberOfItems + 1;
      index := if at < index then index + 1 else index;
      ring := InsertAt(r, at + 1, pxNewListItem);
      forall i | 0 <= i < |r| && i != at ensures LinkedAt(r, i) {
        assert old(LinkedAt(r, i));
      }
      forall i | 1 <= i < |r| ensures OwnedAt(r, this, i) {
        assert old(OwnedAt(r, this, i));
      }
      Spliced(r, at, pxNewListItem);
      OwnedInserted(r, this, at + 1, pxNewListItem);
    }

    // vListInsert
    method Insert(pxNewListItem: ListItem)
      requires Valid() && pxNewListItem !in ring && 0 <= pxNewListItem.xItemValue <= MAX_DELAY
      modifies this, ring`pxNext, ring`pxPrevious
      modifies pxNewListItem`pxNext, pxNewListItem`pxPrevious, pxNewListItem`pvContainer
      ensures Valid() && pxNewListItem.pvContainer == this && pxIndex == old(pxIndex)
      ensures Contents() == SortedList.Insert(old(Contents()),
                                              SortedList.Item(pxNewListItem.pvOwner, pxNewListItem.xItemValue))
      ensures exists k :: 1 <= k <= |old(ring)| && ring == InsertAt(old(ring), k, pxNewListItem)
    {
      hide Walk, InsertAt, NoDup, SortedList.Insert, SortedList.InsertIndex, Linked, Owned;
      var pxIterator, at := Seek(pxNewListItem.xItemValue);
      ghost var contents := Contents();
      Link(pxIterator, pxNewListItem, at);
      ContentsInserted(old(ring), contents, at, pxNewListItem, Contents());
    }

    // listGET_OWNER_OF_NEXT_ENTRY
    method GetOwnerOfNextEntry() returns (owner: nat)
      requires Valid() && uxNumberOfItems > 0
      modifies this`pxIndex, this`index
      ensures Valid() && owner == old(Walk(ring, index)[0]).pvOwner
      ensures Walk(ring, index) == old(Walk(ring, index)[1..] + [Walk(ring, index)[0]])
    {
      NextRotates(ring, index);
      NoDupAt(ring, 0);
      assert LinkedAt(ring, index) && LinkedAt(ring, 0);
      index := Succ(ring, index);
      pxIndex := pxIndex.pxNext;
      if pxIndex == xListEnd {
        pxIndex := pxIndex.pxNext;
        index := 1;
      }
      owner := pxIndex.pvOwner;
    }

    // uxListRemove; the list is the container the item remembers.
    static method Remove(pxItemToRemove: ListItem, ghost p: nat) returns (left: nat)
      requires pxItemToRemove.pvContainer != null && pxItemToRemove.pvContainer.Valid()
      requires 1 <= p < |pxItemToRemove.pvContainer.ring| && pxItemToRemove.pvContainer.ring[p] == pxItemToRemove
      modifies pxItemToRemove.pvContainer, pxItemToRemove`pvContainer
      modifies pxItemToRemove.pvContainer.ring`pxNext, pxItemToRemove.pvContainer.ring`pxPrevious
      ensures var l := old(pxItemToRemove.pvContainer);
              && l.Valid() && pxItemToRemove.pvContainer == null && left == l.uxNumberOfItems
              && l.ring == RemoveAt(old(l.ring), p)
              && Walk(l.ring, l.index) == RemoveAt(old(Walk(l.ring, l.index)),
                   if p <= old(l.index) then |old(l.ring)| - old(l.index) - 1 + p - 1 else p - old(l.index) - 1)
    {
      hide Walk, RemoveAt, NoDup;
      ghost var r, k := pxItemToRemove.pvContainer.ring, pxItemToRemove.pvContainer.index;
      RemovedFromWalk(r, k, p);
      NoDupAt(r, p);
      NoDupAt(r, p - 1);
      NoDupAt(r, Succ(r, p));
      NoDupRemove(r, p);
      assert LinkedAt(r, p - 1) && LinkedAt(r, p) && OwnedAt(r, pxItemToRemove.pvContainer, p);
      pxItemToRemove.pxNext.pxPrevious := pxItemToRemove.pxPrevious;
      pxItemToRemove.pxPrevious.pxNext := pxItemToRemove.pxNext;
      var pxList := pxItemToRemove.pvContainer;
      if pxList.pxIndex == pxItemToRemove {
        pxList.pxIndex := pxItemToRemove.pxPrevious;
      }
      pxItemToRemove.pvContainer := null;
      pxList.uxNumberOfItems := pxList.uxNumberOfItems - 1;
      left := pxList.uxNumberOfItems;
      pxList.index := if p <= k then k - 1 else k;
      pxList.ring := RemoveAt(r, p);
      forall i | 0 <= i < |r| && i != p - 1 && i != p ensures LinkedAt(r, i) {
        assert old(LinkedAt(r, i));
      }
      forall i | 1 <= i < |r| && i != p ensures OwnedAt(r, pxList, i) {
        assert old(OwnedAt(r, pxList, i));
      }
      Unlinked(r, p);
      OwnedRemoved(r, pxList, p);
    }
  }
}
