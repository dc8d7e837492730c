// What vListInsert (utilities/FreeRTOSV7.3.0/list.c) does to the items of a list,
// stated on sequences: the new item goes in front of the first larger value.
// The heap version in CircularList.dfy is proved against Insert.
module SortedList {

  datatype Item = Item(owner: nat, value: int)

  ghost predicate Sorted(l: seq<Item>) {
    forall i, j :: 0 <= i < j < |l| ==> l[i].value <= l[j].value
  }

  // No owner is in the list twice.
  ghost predicate Distinct(l: seq<Item>) {
    forall i, j :: 0 <= i < j < |l| ==> l[i].owner != l[j].owner
  }

  ghost predicate Contains(l: seq<Item>, owner: nat) {
    exists i :: 0 <= i < |l| && l[i].owner == owner
  }

  // The number of leading items whose value is at most v.
  function InsertIndex(l: seq<Item>, v: int): (k: nat)
    ensures k <= |l|
    ensures forall i :: 0 <= i < k ==> l[i].value <= v
    ensures k < |l| ==> v < l[k].value
  {
    if l == [] || v < l[0].value then 0 else 1 + InsertIndex(l[1..], v)
  }

  function Insert(l: seq<Item>, x: Item): seq<Item> {
    var k := InsertIndex(l, x.value);
    l[..k] + [x] + l[k..]
  }

  // uxListRemove, by owner: every item of that owner goes.
  function Remove(l: seq<Item>, owner: nat): (r: seq<Item>)
    ensures |r| <= |l|
  {
    if l == [] then []
    else if l[0].owner == owner then Remove(l[1..], owner)
    else [l[0]] + Remove(l[1..], owner)
  }

  // The bounds InsertIndex promises leave no other choice.
  lemma InsertIndexUnique(l: seq<Item>, v: int, k: nat)
    requires k <= |l|
    requires forall i :: 0 <= i < k ==> l[i].value <= v
    requires k < |l| ==> v < l[k].value
    ensures InsertIndex(l, v) == k
  {
  }

  lemma InsertKeepsSorted(l: seq<Item>, x: Item)
    requires Sorted(l)
    ensures Sorted(Insert(l, x))
  {
    var k := InsertIndex(l, x.value);
    var r := Insert(l, x);
    forall i, j | 0 <= i < j < |r| ensures r[i].value <= r[j].value {
      if k < j {
        assert r[j] == l[j - 1];
        if i == k && k < j - 1 { assert l[k].value <= l[j - 1].value; }
      }
    }
  }

  // Stability: an item with an equal value that was there before stays in front.
  lemma InsertIsStable(l: seq<Item>, x: Item, i: nat)
    requires Sorted(l) && i < |l|
    ensures var k := InsertIndex(l, x.value);
            && Insert(l, x)[k] == x
            && (l[i].value <= x.value <==> i < k)
            && Insert(l, x)[if i < k then i else i + 1] == l[i]
  {
    hide InsertIndex;
    var k := InsertIndex(l, x.value);
    var front, back := l[..k] + [x], l[k..];
    assert front[k] == x;
    if k <= i {
      assert l[k].value <= l[i].value;
      assert (front + back)[i + 1] == back[i - k];
    } else {
      assert (front + back)[i] == front[i];
    }
  }

  lemma InsertInFront(a: seq<Item>, b: seq<Item>, x: Item)
    requires forall j :: 0 <= j < |b| ==> x.value < b[j].value
    ensures Insert(a + b, x) == Insert(a, x) + b
  {
    hide InsertIndex;
    var k := InsertIndex(a, x.value);
    InsertIndexUnique(a + b, x.value, k);
    assert (a + b)[k..] == a[k..] + b;
    assert (a + b)[..k] == a[..k];
    assert a[..k] + [x] + (a[k..] + b) == (a[..k] + [x] + a[k..]) + b;
  }

  lemma InsertBehind(a: seq<Item>, b: seq<Item>, x: Item)
    requires forall j :: 0 <= j < |a| ==> a[j].value <= x.value
    ensures Insert(a + b, x) == a + Insert(b, x)
  {
    hide InsertIndex;
    var k := InsertIndex(b, x.value);
    InsertIndexUnique(a + b, x.value, |a| + k);
    assert (a + b)[|a| + k..] == b[k..];
    assert (a + b)[..|a| + k] == a + b[..k];
    assert (a + b[..k]) + [x] + b[k..] == a + (b[..k] + [x] + b[k..]);
  }

  lemma InsertMembers(l: seq<Item>, x: Item)
    ensures forall y :: y in Insert(l, x) <==> y == x || y in l
  {
    var k := InsertIndex(l, x.value);
    assert l == l[..k] + l[k..];
  }

  lemma InsertContains(l: seq<Item>, x: Item, o: nat)
    ensures Contains(Insert(l, x), o) <==> o == x.owner || Contains(l, o)
  {
    var k := InsertIndex(l, x.value);
    assert l == l[..k] + l[k..];
    ContainsConcat(l[..k], l[k..], o);
    ContainsConcat(l[..k], [x] + l[k..], o);
    ContainsCons(x, l[k..], o);
    assert Insert(l, x) == l[..k] + ([x] + l[k..]);
  }

  lemma InsertKeepsDistinct(l: seq<Item>, x: Item)
    requires Distinct(l) && !Contains(l, x.owner)
    ensures Distinct(Insert(l, x))
  {
    var k := InsertIndex(l, x.value);
    var r := Insert(l, x);
    forall i, j | 0 <= i < j < |r| ensures r[i].owner != r[j].owner {
      assert i != k ==> r[i] == l[if i < k then i else i - 1];
      assert j != k ==> r[j] == l[if j < k then j else j - 1];
    }
  }

  // What is left of the first item.
  function Spared(x: Item, owner: nat): seq<Item> { if x.owner == owner then [] else [x] }

  lemma RemoveHead(l: seq<Item>, owner: nat)
    requires l != []
    ensures Remove(l, owner) == Spared(l[0], owner) + Remove(l[1..], owner)
  {
    if l[0].owner == owner { assert Remove(l, owner) == [] + Remove(l[1..], owner); }
  }

  lemma {:induction false} RemoveMember(l: seq<Item>, owner: nat, y: Item)
    ensures y in Remove(l, owner) <==> y in l && y.owner != owner
  {
    if l != [] {
      RemoveMember(l[1..], owner, y);
      assert l == [l[0]] + l[1..];
    }
  }

  lemma {:induction false} RemoveNobody(l: seq<Item>, owner: nat)
    requires forall y :: y in l ==> y.owner != owner
    ensures Remove(l, owner) == l
    decreases |l|
  {
    if l != [] {
      assert l[0] in l;
      RemoveNobody(l[1..], owner);
      assert l == [l[0]] + l[1..];
    }
  }

  lemma RemoveMembers(l: seq<Item>, owner: nat)
    ensures forall y :: y in Remove(l, owner) <==> y in l && y.owner != owner
  {
    hide Remove;
    forall y ensures y in Remove(l, owner) <==> y in l && y.owner != owner { RemoveMember(l, owner, y); }
  }

  lemma {:induction false} RemoveKeepsOrder(l: seq<Item>, owner: nat)
    ensures Sorted(l) ==> Sorted(Remove(l, owner))
    ensures Distinct(l) ==> Distinct(Remove(l, owner))
    decreases |l|
  {
    if l != [] {
      hide Remove, Spared, Sorted, Distinct, AtMost, NotOwner;
      RemoveKeepsOrder(l[1..], owner);
      RemoveMembers(l[1..], owner);
      RemoveHead(l, owner);
      OrderOfTail(l);
      Fewer(l[0], l[1..], Remove(l[1..], owner));
      OrderOfSpared(l[0], Remove(l[1..], owner), owner);
    }
  }

  ghost predicate AtMost(x: Item, l: seq<Item>) { forall y :: y in l ==> x.value <= y.value }

  ghost predicate NotOwner(x: Item, l: seq<Item>) { forall y :: y in l ==> x.owner != y.owner }

  lemma OrderOfTail(l: seq<Item>)
    requires l != []
    ensures Sorted(l) ==> Sorted(l[1..]) && AtMost(l[0], l[1..])
    ensures Distinct(l) ==> Distinct(l[1..]) && NotOwner(l[0], l[1..])
  {
  }

  lemma SortedCons(x: Item, l: seq<Item>)
    requires Sorted(l) && AtMost(x, l)
    ensures Sorted([x] + l)
  {
    var s := [x] + l;
    assert forall i :: 1 <= i < |s| ==> s[i] == l[i - 1] && s[i] in l;
  }

  lemma DistinctCons(x: Item, l: seq<Item>)
    requires Distinct(l) && NotOwner(x, l)
    ensures Distinct([x] + l)
  {
    var s := [x] + l;
    assert forall i :: 1 <= i < |s| ==> s[i] == l[i - 1] && s[i] in l;
  }

  lemma Fewer(x: Item, l: seq<Item>, r: seq<Item>)
    requires forall y :: y in r ==> y in l
    ensures AtMost(x, l) ==> AtMost(x, r)
    ensures NotOwner(x, l) ==> NotOwner(x, r)
  {
  }

  lemma OrderOfSpared(x: Item, r: seq<Item>, owner: nat)
    ensures Sorted(r) && AtMost(x, r) ==> Sorted(Spared(x, owner) + r)
    ensures Distinct(r) && NotOwner(x, r) ==> Distinct(Spared(x, owner) + r)
  {
    hide Sorted, AtMost, Distinct, NotOwner;
    assert [] + r == r;
    if Sorted(r) && AtMost(x, r) { SortedCons(x, r); }
    if Distinct(r) && NotOwner(x, r) { DistinctCons(x, r); }
  }

  lemma {:induction false} RemoveContains(l: seq<Item>, owner: nat, o: nat)
    ensures Contains(Remove(l, owner), o) <==> o != owner && Contains(l, o)
  {
    if l != [] {
      hide Contains;
      RemoveContains(l[1..], owner, o);
      assert l == [l[0]] + l[1..];
      ContainsCons(l[0], l[1..], o);
      ContainsCons(l[0], Remove(l[1..], owner), o);
    }
  }

  lemma ContainsCons(x: Item, l: seq<Item>, o: nat)
    ensures Contains([x] + l, o) <==> x.owner == o || Contains(l, o)
  {
    var r := [x] + l;
    if x.owner == o { assert r[0].owner == o; }
    if Contains(l, o) {
      var i :| 0 <= i < |l| && l[i].owner == o;
      assert r[i + 1].owner == o;
    }
    if Contains(r, o) {
      var i :| 0 <= i < |r| && r[i].owner == o;
      if i > 0 { assert l[i - 1].owner == o; }
    }
  }

  lemma ContainsConcat(a: seq<Item>, b: seq<Item>, o: nat)
    ensures Contains(a + b, o) <==> Contains(a, o) || Contains(b, o)
  {
    if Contains(a, o) {
      var i :| 0 <= i < |a| && a[i].owner == o;
      assert (a + b)[i].owner == o;
    }
    if Contains(b, o) {
      var i :| 0 <= i < |b| && b[i].owner == o;
      assert (a + b)[|a| + i].owner == o;
    }
  }

  lemma {:induction false} RemoveConcat(a: seq<Item>, b: seq<Item>, o: nat)
    ensures Remove(a + b, o) == Remove(a, o) + Remove(b, o)
    decreases |a|
  {
    if a == [] {
      assert a + b == b && Remove(a, o) == [];
    } else {
      hide Remove, Spared;
      RemoveConcat(a[1..], b, o);
      RemoveHead(a, o);
      RemoveHead(a + b, o);
      assert (a + b)[1..] == a[1..] + b && (a + b)[0] == a[0];
      assert Spared(a[0], o) + (Remove(a[1..], o) + Remove(b, o))
          == (Spared(a[0], o) + Remove(a[1..], o)) + Remove(b, o);
    }
  }

  // The same items with every value moved by the same amount.
  function Shift(l: seq<Item>, delta: int): (r: seq<Item>)
    ensures |r| == |l|
    ensures forall i :: 0 <= i < |l| ==> r[i] == Item(l[i].owner, l[i].value + delta)
  {
    seq(|l|, i requires 0 <= i < |l| => Item(l[i].owner, l[i].value + delta))
  }

  lemma ShiftInsert(l: seq<Item>, x: Item, delta: int)
    ensures Shift(Insert(l, x), delta) == Insert(Shift(l, delta), Item(x.owner, x.value + delta))
  {
    hide InsertIndex;
    var k := InsertIndex(l, x.value);
    var t, y := Shift(l, delta), Item(x.owner, x.value + delta);
    InsertIndexUnique(t, y.value, k);
    var r, u := Shift(Insert(l, x), delta), Insert(t, y);
    assert u == t[..k] + [y] + t[k..];
    forall i | 0 <= i < |r| ensures r[i] == u[i] {
      var z := Insert(l, x)[i];
      assert z == if i < k then l[i] else if i == k then x else l[i - 1];
      assert u[i] == if i < k then t[i] else if i == k then y else t[i - 1];
    }
  }

  lemma {:induction false} ShiftRemove(l: seq<Item>, o: nat, delta: int)
    ensures Shift(Remove(l, o), delta) == Remove(Shift(l, delta), o)
  {
    if l != [] {
      ShiftRemove(l[1..], o, delta);
      assert Shift(l, delta)[1..] == Shift(l[1..], delta);
    }
  }

  // How far the items of a list are below a limit, added up: what a loop that
  // keeps moving items towards the limit uses up.
  function Slack(l: seq<Item>, limit: int): nat {
    if l == [] then 0
    else (if l[0].value < limit then limit - l[0].value else 0) + Slack(l[1..], limit)
  }

  lemma {:induction false} SlackConcat(a: seq<Item>, b: seq<Item>, limit: int)
    ensures Slack(a + b, limit) == Slack(a, limit) + Slack(b, limit)
  {
    if a == [] {
      assert a + b == b;
    } else {
      SlackConcat(a[1..], b, limit);
      assert (a + b)[1..] == a[1..] + b;
    }
  }

  lemma SlackInsert(l: seq<Item>, x: Item, limit: int)
    ensures Slack(Insert(l, x), limit) == Slack(l, limit) + (if x.value < limit then limit - x.value else 0)
  {
    var k := InsertIndex(l, x.value);
    assert l == l[..k] + l[k..];
    SlackConcat(l[..k], l[k..], limit);
    SlackConcat(l[..k] + [x], l[k..], limit);
    SlackConcat(l[..k], [x], limit);
  }
}
