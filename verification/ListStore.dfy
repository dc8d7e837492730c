// A family of lists that share one list item per owner, as list.c keeps them: every item
// remembers the list it is in (pvContainer), so it can be unlinked without naming the list.
module ListStore {
  import opened SortedList

  // The lists of croutine.c: generic items are in Ready and Delay lists, event items in
  // Event lists and in Pending.
  datatype Place = Ready(priority: nat) | Delay(index: nat) | Event(event: nat) | Pending

  // at is pvContainer; owners not in it are in no list.
  datatype Store = Store(lists: map<Place, seq<Item>>, at: map<nat, Place>)

  const EMPTY: Store := Store(map[], map[])

  function ListAt(st: Store, l: Place): seq<Item> {
    if l in st.lists then st.lists[l] else []
  }

  function Owners(l: seq<Item>): set<nat> { set x | x in l :: x.owner }

  function OwnersAt(at: map<nat, Place>, l: Place): set<nat> { set o | o in at && at[o] == l }

  // List l holds every owner whose item points to it, once, and nobody else.
  ghost predicate ListOk(st: Store, l: Place) {
    Distinct(ListAt(st, l)) && Owners(ListAt(st, l)) == OwnersAt(st.at, l)
  }

  ghost predicate StoreOk(st: Store) {
    forall l :: ListOk(st, l)
  }

  // uxListRemove
  function TakeOut(st: Store, owner: nat): Store
    requires owner in st.at
  {
    var l := st.at[owner];
    Store(st.lists[l := Remove(ListAt(st, l), owner)], st.at - {owner})
  }

  // vListInsert
  function PutSorted(st: Store, l: Place, x: Item): Store {
    Store(st.lists[l := Insert(ListAt(st, l), x)], st.at[x.owner := l])
  }

  // vListInsertEnd, on the order in which the list will be walked
  function PutEnd(st: Store, l: Place, x: Item): Store {
    Store(st.lists[l := ListAt(st, l) + [x]], st.at[x.owner := l])
  }

  // listGET_OWNER_OF_NEXT_ENTRY, on the same order
  function Rotate(st: Store, l: Place): Store
    requires ListAt(st, l) != []
  {
    st.(lists := st.lists[l := ListAt(st, l)[1..] + [ListAt(st, l)[0]]])
  }

  lemma ContainsOwner(l: seq<Item>, o: nat)
    ensures o in Owners(l) <==> Contains(l, o)
  {
    if Contains(l, o) {
      var i :| 0 <= i < |l| && l[i].owner == o;
      assert l[i] in l;
    }
  }

  lemma OwnersOfInsert(l: seq<Item>, x: Item)
    ensures Owners(Insert(l, x)) == Owners(l) + {x.owner}
    ensures Owners(l + [x]) == Owners(l) + {x.owner}
  {
    InsertMembers(l, x);
  }

  lemma OwnersOfRemove(l: seq<Item>, o: nat)
    ensures Owners(Remove(l, o)) == Owners(l) - {o}
  {
    RemoveMembers(l, o);
  }

  lemma TakeOutKeeps(st: Store, owner: nat)
    requires StoreOk(st) && owner in st.at
    ensures StoreOk(TakeOut(st, owner))
  {
    hide Distinct, Remove, Owners, OwnersAt;
    var r := TakeOut(st, owner);
    forall l ensures ListOk(r, l) {
      assert ListOk(st, l);
      RemoveKeepsOrder(ListAt(st, l), owner);
      OwnersOfRemove(ListAt(st, l), owner);
      OwnersAtLess(st.at, owner, l);
    }
  }

  lemma OwnersAtLess(at: map<nat, Place>, o: nat, l: Place)
    requires o in at
    ensures OwnersAt(at - {o}, l) == OwnersAt(at, l) - {o}
    ensures at[o] != l ==> OwnersAt(at - {o}, l) == OwnersAt(at, l)
  {
  }

  lemma OwnersAtMore(at: map<nat, Place>, o: nat, l: Place, m: Place)
    requires o !in at
    ensures OwnersAt(at[o := l], m) == OwnersAt(at, m) + if m == l then {o} else {}
    ensures o !in OwnersAt(at, m)
  {
  }

  lemma PutKeeps(st: Store, l: Place, x: Item)
    requires StoreOk(st) && x.owner !in st.at
    ensures StoreOk(PutSorted(st, l, x)) && StoreOk(PutEnd(st, l, x))
  {
    hide Insert, Owners, OwnersAt, Distinct, Contains;
    forall m ensures ListOk(PutSorted(st, l, x), m) && ListOk(PutEnd(st, l, x), m) {
      assert ListOk(st, m);
      OwnersAtMore(st.at, x.owner, l, m);
      ContainsOwner(ListAt(st, m), x.owner);
      OwnersOfInsert(ListAt(st, m), x);
      InsertKeepsDistinct(ListAt(st, m), x);
      AppendKeepsDistinct(ListAt(st, m), x);
    }
  }

  lemma AppendKeepsDistinct(l: seq<Item>, x: Item)
    requires Distinct(l) && !Contains(l, x.owner)
    ensures Distinct(l + [x])
  {
  }

  lemma RotateKeeps(st: Store, l: Place)
    requires StoreOk(st) && ListAt(st, l) != []
    ensures StoreOk(Rotate(st, l))
  {
    hide Distinct, Owners, OwnersAt;
    forall m ensures ListOk(Rotate(st, l), m) {
      assert ListOk(st, m);
      if m == l { RotatedList(ListAt(st, l)); }
    }
  }

  lemma RotatedList(l: seq<Item>)
    requires l != []
    ensures Owners(l[1..] + [l[0]]) == Owners(l)
    ensures Distinct(l) ==> Distinct(l[1..] + [l[0]])
  {
    assert l == [l[0]] + l[1..];
  }
}
