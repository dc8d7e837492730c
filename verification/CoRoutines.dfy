// The co-routine scheduler of utilities/FreeRTOSV7.3.0/croutine.c.  Interrupts may ready a
// waiting co-routine between any two steps of the scheduler; each step below is a stretch
// of the source that an interrupt cannot split, as far as the lists it touches go.
module CoRoutines {
  import opened Basics
  import opened Ticks
  import opened SortedList
  import opened ListStore

  // Where vCoRoutineSchedule is; Resting is between two calls of it.
  datatype Phase = Resting | CheckingPending | Ticking | Choosing | Running

  // A co-routine in the middle of being readied: Readied has left the pending list but not
  // yet its delayed list, Expired has left both.
  datatype Moving = Nobody | Readied(id: nat) | Expired(id: nat)

  datatype State = State(
    levels: nat,                  // configMAX_CO_ROUTINE_PRIORITIES
    maxPriorities: nat,           // configMAX_PRIORITIES
    priority: map<nat, nat>,      // the co-routines created, with their priorities
    generic: Store,               // xGenericListItem of each: ready and delayed lists
    event: Store,                 // xEventListItem of each: event lists and the pending list
    cur: nat,                     // which of the two delayed lists is pxDelayedCoRoutineList
    top: nat,                     // uxTopCoRoutineReadyPriority
    tick: Tick,                   // xCoRoutineTickCount
    lastTick: Tick,
    passed: Tick,
    current: Option<nat>,
    phase: Phase,
    moving: Moving,
    time: nat,                    // history: how often xCoRoutineTickCount was incremented
    wakeAt: map<nat, nat>)        // history: the time until which each was last delayed

  datatype Label =
    | Create(id: nat, uxPriority: nat)
    | Begin
    | TakePending
    | PutReady
    | EndPending(now: Tick)
    | StepTick
    | TakeExpired
    | EndTicks
    | Choose
    | AddToDelayed(ticks: Period, eventList: Option<nat>)
    | Return
    | Notify(e: nat)

  // There are two delayed lists; at tick zero they change places.
  function Other(cur: nat): nat { if cur == 0 then 1 else 0 }

  function DelayedList(s: State): seq<Item> { ListAt(s.generic, Delay(s.cur)) }

  function OverflowList(s: State): seq<Item> { ListAt(s.generic, Delay(Other(s.cur))) }

  function ReadyList(s: State, p: nat): seq<Item> { ListAt(s.generic, Ready(p)) }

  function PendingList(s: State): seq<Item> { ListAt(s.event, Pending) }

  // The test at line 285, negated: the co-routine that wakes first has reached its time.
  predicate Due(s: State) {
    DelayedList(s) != [] && DelayedList(s)[0].value <= s.tick
  }

  predicate Enabled(s: State, l: Label) {
    s.cur < 2 &&
    match l
    case Create(id, _) => s.phase in {Resting, Running} && id !in s.priority && s.levels > 0
    case Begin => s.phase == Resting
    case TakePending =>
      s.phase == CheckingPending && s.moving == Nobody && PendingList(s) != [] && PendingList(s)[0].owner in s.event.at
    case PutReady =>
      s.moving != Nobody && s.moving.id in s.priority && (s.moving.Readied? ==> s.moving.id in s.generic.at)
    case EndPending(_) => s.phase == CheckingPending && s.moving == Nobody && PendingList(s) == []
    case StepTick => s.phase == Ticking && s.moving == Nobody && s.passed > 0 && !Due(s)
    case TakeExpired => s.phase == Ticking && s.moving == Nobody && Due(s) && DelayedList(s)[0].owner in s.generic.at
    case EndTicks => s.phase == Ticking && s.moving == Nobody && s.passed == 0 && !Due(s)
    case Choose => s.phase == Choosing
    case AddToDelayed(_, ev) =>
      && s.phase == Running && s.current.Some?
      && s.current.value in s.generic.at && s.current.value in s.priority
      && (ev.Some? ==> s.current.value !in s.event.at)
    case Return => s.phase == Running
    case Notify(e) => ListAt(s.event, Event(e)) != [] && ListAt(s.event, Event(e))[0].owner in s.event.at
  }

  // prvAddCoRoutineToReadyQueue
  function AddToReadyQueue(s: State, id: nat): State
    requires id in s.priority
  {
    var p := s.priority[id];
    s.(top := if p > s.top then p else s.top, generic := PutEnd(s.generic, Ready(p), Item(id, 0)))
  }

  // The loop at lines 325-333.
  function HighestReady(s: State, p: nat): (r: nat)
    ensures r <= p
    ensures forall q :: r < q <= p ==> ReadyList(s, q) == []
    ensures r > 0 ==> ReadyList(s, r) != []
  {
    if ReadyList(s, p) == [] && p > 0 then HighestReady(s, p - 1) else p
  }

  function Next(s: State, l: Label): State
    requires Enabled(s, l)
  {
    match l
    case Create(id, uxPriority) =>
      var p := if uxPriority >= s.levels then s.levels - 1 else uxPriority;
      var s1 := s.(priority := s.priority[id := p], current := if s.current == None then Some(id) else s.current);
      AddToReadyQueue(s1, id)
    case Begin => s.(phase := CheckingPending)
    case TakePending =>
      var id := PendingList(s)[0].owner;
      s.(event := TakeOut(s.event, id), moving := Readied(id))
    case PutReady =>
      var id := s.moving.id;
      var s1 := if s.moving.Readied? then s.(generic := TakeOut(s.generic, id)) else s;
      AddToReadyQueue(s1, id).(moving := Nobody)
    case EndPending(now) => s.(phase := Ticking, passed := Sub(now, s.lastTick))
    case StepTick =>
      var t := Add(s.tick, 1);
      s.(tick := t, passed := s.passed - 1, time := s.time + 1, cur := if t == 0 then Other(s.cur) else s.cur)
    case TakeExpired =>
      var id := DelayedList(s)[0].owner;
      s.(generic := TakeOut(s.generic, id),
         event := if id in s.event.at then TakeOut(s.event, id) else s.event,
         moving := Expired(id))
    case EndTicks => s.(phase := Choosing, lastTick := s.tick)
    case Choose =>
      var p := HighestReady(s, s.top);
      if ReadyList(s, p) == [] then s.(top := p, phase := Resting)
      else
        s.(top := p, generic := Rotate(s.generic, Ready(p)), current := Some(ReadyList(s, p)[0].owner),
           phase := Running)
    case AddToDelayed(ticks, ev) =>
      var id := s.current.value;
      var wake := Add(s.tick, ticks);
      var list := if wake < s.tick then Delay(Other(s.cur)) else Delay(s.cur);
      s.(generic := PutSorted(TakeOut(s.generic, id), list, Item(id, wake)),
         wakeAt := s.wakeAt[id := s.time + ticks],
         event :=
           if ev.Some? then PutSorted(s.event, Event(ev.value), Item(id, s.maxPriorities - s.priority[id]))
           else s.event)
    case Return => s.(phase := Resting)
    case Notify(e) =>
      var x := ListAt(s.event, Event(e))[0];
      s.(event := PutEnd(TakeOut(s.event, x.owner), Pending, x))
  }

  // Every co-routine has its generic item in one ready or delayed list, that of its own
  // priority if ready, unless it is on its way to a ready list.
  ghost predicate Placed(s: State, id: nat) {
    && (id in s.priority <==> id in s.generic.at || s.moving == Expired(id))
    && !(id in s.generic.at && s.moving == Expired(id))
    && (id in s.priority ==> s.priority[id] < s.levels)
    && (id in s.generic.at ==>
          match s.generic.at[id]
          case Ready(p) => p == s.priority[id]
          case Delay(i) => i < 2
          case _ => false)
    && (s.moving == Readied(id) ==> id in s.generic.at && s.generic.at[id].Delay?)
    // An event item is in at most one event list or the pending list, and only while the
    // co-routine is delayed.
    && (id in s.event.at ==>
          && (s.event.at[id].Event? || s.event.at[id] == Pending)
          && id in s.generic.at && s.generic.at[id].Delay?
          && s.moving != Readied(id))
  }

  ghost predicate AllPlaced(s: State) {
    forall id :: Placed(s, id)
  }

  // No co-routine above the top priority is ready.
  ghost predicate TopFits(s: State) {
    && s.top < s.levels
    && (forall p :: p > s.top ==> ReadyList(s, p) == [])
  }

  // A delayed co-routine is listed under the tick at which its delay ends, in the list of
  // the epoch in which that is, and its delay is not over; it may end just now only while
  // the scheduler is counting ticks.
  ghost predicate DelayFits(s: State, x: Item, epoch: nat) {
    && x.owner in s.wakeAt
    && x.value == Of(s.wakeAt[x.owner])
    && Epoch(s.wakeAt[x.owner]) == epoch
    && s.time <= s.wakeAt[x.owner]
    && (s.phase != Ticking ==> s.time < s.wakeAt[x.owner])
  }

  ghost predicate DelaysFit(s: State) {
    && s.cur < 2
    && s.tick == Of(s.time)
    && Sorted(DelayedList(s)) && Sorted(OverflowList(s))
    && (forall x :: x in DelayedList(s) ==> DelayFits(s, x, Epoch(s.time)))
    && (forall x :: x in OverflowList(s) ==> DelayFits(s, x, Epoch(s.time) + 1))
  }

  // Event lists are in the order of priority, highest first.
  ghost predicate EventOrder(s: State, l: Place) {
    && Sorted(ListAt(s.event, l))
    && (forall x :: x in ListAt(s.event, l) ==>
          x.owner in s.priority && x.value == s.maxPriorities - s.priority[x.owner])
  }

  ghost predicate EventsOrdered(s: State) {
    forall e: nat :: EventOrder(s, Event(e))
  }

  predicate CurrentKnown(s: State) {
    && (if s.current.Some? then s.current.value in s.priority else s.priority == map[])
    && (s.phase == Running ==> s.current.Some?)
    && (s.moving != Nobody ==> s.phase == CheckingPending || s.phase == Ticking)
    && (s.phase != Ticking ==> s.lastTick == s.tick)
  }

  ghost predicate Inv(s: State) {
    && StoreOk(s.generic) && StoreOk(s.event)
    && AllPlaced(s)
    && TopFits(s)
    && DelaysFit(s)
    && EventsOrdered(s)
    && CurrentKnown(s)
  }

  // ---- the lists ----

  lemma ReadyQueueStores(s: State, id: nat)
    requires StoreOk(s.generic) && id in s.priority && id !in s.generic.at
    ensures StoreOk(AddToReadyQueue(s, id).generic)
  {
    PutKeeps(s.generic, Ready(s.priority[id]), Item(id, 0));
  }

  lemma PendingHead(s: State, l: Place)
    requires StoreOk(s.event) && ListAt(s.event, l) != []
    ensures var id := ListAt(s.event, l)[0].owner;
            id in s.event.at && s.event.at[id] == l
  {
    HeadIsAt(s.event, l);
  }

  // The owner at the head of a list has its item there.
  lemma HeadIsAt(st: Store, l: Place)
    requires StoreOk(st) && ListAt(st, l) != []
    ensures var id := ListAt(st, l)[0].owner; id in st.at && st.at[id] == l
  {
    assert ListOk(st, l);
    assert ListAt(st, l)[0] in ListAt(st, l);
    assert ListAt(st, l)[0].owner in Owners(ListAt(st, l));
  }

  lemma StoresKept(s: State, l: Label)
    requires Inv(s) && Enabled(s, l)
    ensures var r := Next(s, l); StoreOk(r.generic) && StoreOk(r.event)
  {
    hide StoreOk, TopFits, DelaysFit, EventsOrdered, HighestReady;
    match l
    case Create(id, _) =>
      assert Placed(s, id);
      ReadyQueueStores(Next(s, l).(generic := s.generic), id);
    case TakePending => TakeOutKeeps(s.event, PendingList(s)[0].owner);
    case PutReady =>
      if s.moving.Readied? {
        var id := s.moving.id;
        TakeOutKeeps(s.generic, id);
        ReadyQueueStores(s.(generic := TakeOut(s.generic, id)), id);
      } else {
        assert Placed(s, s.moving.id);
        ReadyQueueStores(s, s.moving.id);
      }
    case TakeExpired =>
      var id := DelayedList(s)[0].owner;
      TakeOutKeeps(s.generic, id);
      if id in s.event.at { TakeOutKeeps(s.event, id); }
    case Choose =>
      var p := HighestReady(s, s.top);
      if ReadyList(s, p) != [] { RotateKeeps(s.generic, Ready(p)); }
    case AddToDelayed(ticks, ev) =>
      var id := s.current.value;
      TakeOutKeeps(s.generic, id);
      var wake := Add(s.tick, ticks);
      PutKeeps(TakeOut(s.generic, id), if wake < s.tick then Delay(Other(s.cur)) else Delay(s.cur), Item(id, wake));
      if ev.Some? { PutKeeps(s.event, Event(ev.value), Item(id, s.maxPriorities - s.priority[id])); }
    case Notify(e) =>
      var x := ListAt(s.event, Event(e))[0];
      TakeOutKeeps(s.event, x.owner);
      PutKeeps(TakeOut(s.event, x.owner), Pending, x);
    case _ =>
  }

  // ---- the places ----

  lemma PlacedKept(s: State, l: Label, id: nat)
    requires Inv(s) && Enabled(s, l)
    ensures Placed(Next(s, l), id)
  {
    hide StoreOk, TopFits, DelaysFit, EventsOrdered, ListAt, HighestReady, Insert, Remove;
    assert Placed(s, id);
    match l
    case TakePending => PendingHead(s, Pending); assert Placed(s, PendingList(s)[0].owner);
    case PutReady => assert Placed(s, s.moving.id);
    case TakeExpired => HeadIsAt(s.generic, Delay(s.cur)); assert Placed(s, DelayedList(s)[0].owner);
    case AddToDelayed(_, _) => assert Placed(s, s.current.value);
    case Notify(e) => PendingHead(s, Event(e)); assert Placed(s, ListAt(s.event, Event(e))[0].owner);
    case Create(x, _) => assert Placed(s, x);
    case _ =>
  }

  // Taking an item out or putting one elsewhere leaves an empty ready list empty.
  lemma StaysEmpty(st: Store, l: Place, id: nat)
    requires ListAt(st, l) == []
    ensures id in st.at ==> ListAt(TakeOut(st, id), l) == []
  {
  }

  lemma TopKept(s: State, l: Label)
    requires Inv(s) && Enabled(s, l)
    ensures TopFits(Next(s, l))
  {
    hide StoreOk, DelaysFit, EventsOrdered, Due, Insert, AllPlaced, TakeOut;
    TopOf(s);
    var r := Next(s, l);
    if l.PutReady? || l.Create? { PriorityInRange(s, if l.PutReady? then s.moving.id else l.id); }
    forall p | p > r.top ensures ReadyList(r, p) == [] {
      assert ReadyList(s, p) == [];
      if p > s.top {
        forall id | id in s.generic.at ensures ListAt(TakeOut(s.generic, id), Ready(p)) == [] {
          StaysEmpty(s.generic, Ready(p), id);
        }
      }
    }
  }

  lemma TopOf(s: State)
    requires TopFits(s)
    ensures s.top < s.levels
  {
  }

  lemma PriorityInRange(s: State, id: nat)
    requires AllPlaced(s)
    ensures id in s.priority ==> s.priority[id] < s.levels
  {
    assert Placed(s, id);
  }

  // ---- the delays ----

  // Taking an item out of the lists leaves the others as they were.
  lemma DelaysAfterTakeOut(s: State, id: nat)
    requires DelaysFit(s) && id in s.generic.at
    ensures DelaysFit(s.(generic := TakeOut(s.generic, id)))
    ensures forall x :: x in ListAt(TakeOut(s.generic, id), Delay(s.cur)) ==> x in DelayedList(s)
    ensures forall x :: x in ListAt(TakeOut(s.generic, id), Delay(Other(s.cur))) ==> x in OverflowList(s)
  {
    hide Sorted, Remove, Of, Epoch;
    RemoveMembers(DelayedList(s), id);
    RemoveMembers(OverflowList(s), id);
    RemoveKeepsOrder(DelayedList(s), id);
    RemoveKeepsOrder(OverflowList(s), id);
  }

  lemma NobodyLeft(st: Store, id: nat, l: Place)
    requires StoreOk(st) && id in st.at
    ensures forall x :: x in ListAt(TakeOut(st, id), l) ==> x.owner != id
  {
    hide Distinct, Remove;
    TakeOutKeeps(st, id);
    var r := TakeOut(st, id);
    assert ListOk(r, l);
    forall x | x in ListAt(r, l) ensures x.owner != id {
      assert x.owner in Owners(ListAt(r, l));
    }
  }

  // The wake time computed on the wrapping clock selects the list of its epoch.
  lemma WakeEpoch(time: nat, ticks: Period)
    ensures Add(Of(time), ticks) == Of(time + ticks)
    ensures Add(Of(time), ticks) < Of(time) <==> Epoch(time + ticks) == Epoch(time) + 1
    ensures Add(Of(time), ticks) >= Of(time) <==> Epoch(time + ticks) == Epoch(time)
  {
  }

  lemma DelaysAfterAdd(s: State, ticks: Period, ev: Option<nat>)
    requires Inv(s) && Enabled(s, AddToDelayed(ticks, ev))
    ensures DelaysFit(Next(s, AddToDelayed(ticks, ev)))
  {
    hide StoreOk, AllPlaced, TopFits, EventsOrdered, CurrentKnown, Sorted, TakeOut, Insert, Add, Of, Epoch;
    var id := s.current.value;
    var r := Next(s, AddToDelayed(ticks, ev));
    var g := TakeOut(s.generic, id);
    DelaysAfterTakeOut(s, id);
    NobodyLeft(s.generic, id, Delay(s.cur));
    NobodyLeft(s.generic, id, Delay(Other(s.cur)));
    WakeEpoch(s.time, ticks);
    var x := Item(id, Add(s.tick, ticks));
    InsertKeepsSorted(ListAt(g, Delay(s.cur)), x);
    InsertKeepsSorted(ListAt(g, Delay(Other(s.cur))), x);
    InsertMembers(ListAt(g, Delay(s.cur)), x);
    InsertMembers(ListAt(g, Delay(Other(s.cur))), x);
  }

  // If the co-routine that wakes first is not due, nobody is.
  lemma NoneDue(s: State)
    requires DelaysFit(s) && !Due(s)
    ensures forall x :: x in DelayedList(s) ==> s.time < s.wakeAt[x.owner]
  {
    hide Epoch, Of;
    forall x | x in DelayedList(s) ensures s.time < s.wakeAt[x.owner] {
      assert DelayFits(s, x, Epoch(s.time));
      assert DelayedList(s)[0].value <= x.value;
    }
  }

  // When the tick count wraps, the list about to become the overflow list is empty.
  lemma SwapFindsEmptyList(s: State)
    requires DelaysFit(s) && !Due(s) && Add(s.tick, 1) == 0
    ensures DelayedList(s) == []
  {
    hide Of, Epoch, Add, Sorted;
    NoneDue(s);
    if DelayedList(s) != [] {
      var x := DelayedList(s)[0];
      assert x in DelayedList(s);
      LastTickOfEpoch(s.time, s.wakeAt[x.owner]);
    }
  }

  lemma LastTickOfEpoch(time: nat, wake: nat)
    requires time < wake && Add(Of(time), 1) == 0
    ensures Epoch(wake) != Epoch(time)
  {
  }

  lemma DelaysAfterTick(s: State)
    requires Inv(s) && Enabled(s, StepTick)
    ensures DelaysFit(Next(s, StepTick))
  {
    hide StoreOk, AllPlaced, TopFits, EventsOrdered, CurrentKnown, Sorted;
    NoneDue(s);
    if Add(s.tick, 1) == 0 { SwapFindsEmptyList(s); }
  }

  // Whatever leaves the delayed lists and the time alone, and does not begin to count or
  // ends it with nobody due, keeps the delays right.
  lemma DelaysUntouched(s: State, r: State)
    requires DelaysFit(s)
    requires DelayedList(r) == DelayedList(s) && OverflowList(r) == OverflowList(s)
    requires r.cur == s.cur && r.tick == s.tick && r.time == s.time && r.wakeAt == s.wakeAt
    requires r.phase == Ticking || s.phase != Ticking
    ensures DelaysFit(r)
  {
    hide Sorted, Of, Epoch, DelayedList, OverflowList;
    forall x | x in DelayedList(r) ensures DelayFits(r, x, Epoch(r.time)) { assert DelayFits(s, x, Epoch(s.time)); }
    forall x | x in OverflowList(r) ensures DelayFits(r, x, Epoch(r.time) + 1) {
      assert DelayFits(s, x, Epoch(s.time) + 1);
    }
  }

  lemma DelaysElsewhere(s: State, l: Label)
    requires Inv(s) && Enabled(s, l)
    requires !l.PutReady? && !l.StepTick? && !l.TakeExpired? && !l.AddToDelayed? && !l.EndTicks?
    ensures DelaysFit(Next(s, l))
  {
    hide StoreOk, AllPlaced, TopFits, EventsOrdered, DelaysFit, TakeOut, Insert, Remove, Epoch, Of, HighestReady;
    DelaysUntouched(s, Next(s, l));
  }

  lemma DelaysKept(s: State, l: Label)
    requires Inv(s) && Enabled(s, l)
    ensures DelaysFit(Next(s, l))
  {
    hide StoreOk, AllPlaced, TopFits, EventsOrdered, Sorted, TakeOut, Insert, Remove, Epoch, Of, HighestReady;
    match l
    case PutReady => if s.moving.Readied? { DelaysAfterTakeOut(s, s.moving.id); }
    case StepTick => DelaysAfterTick(s);
    case TakeExpired => DelaysAfterTakeOut(s, DelayedList(s)[0].owner);
    case AddToDelayed(ticks, ev) => DelaysAfterAdd(s, ticks, ev);
    case EndTicks => NoneDue(s);
    case _ => DelaysElsewhere(s, l);
  }

  // ---- the event lists ----

  lemma OrderAfterTakeOut(s: State, id: nat, l: Place)
    requires EventOrder(s, l) && id in s.event.at
    ensures EventOrder(s.(event := TakeOut(s.event, id)), l)
  {
    hide Sorted, Remove;
    RemoveKeepsOrder(ListAt(s.event, l), id);
    RemoveMembers(ListAt(s.event, l), id);
  }

  lemma OrderAfterPut(s: State, id: nat, m: Place, l: Place)
    requires EventOrder(s, l) && id in s.priority
    ensures var x := Item(id, s.maxPriorities - s.priority[id]);
            && EventOrder(s.(event := PutSorted(s.event, m, x)), l)
            && (l != m ==> EventOrder(s.(event := PutEnd(s.event, m, x)), l))
  {
    hide Sorted, Insert;
    var x := Item(id, s.maxPriorities - s.priority[id]);
    InsertKeepsSorted(ListAt(s.event, l), x);
    InsertMembers(ListAt(s.event, l), x);
  }

  lemma OrderKept(s: State, l: Label, e: nat)
    requires Inv(s) && Enabled(s, l)
    ensures EventOrder(Next(s, l), Event(e))
  {
    hide StoreOk, AllPlaced, TopFits, DelaysFit, Sorted, TakeOut, Insert, Remove, HighestReady, ListAt;
    assert EventOrder(s, Event(e));
    match l
    case TakePending => OrderAfterTakeOut(s, PendingList(s)[0].owner, Event(e));
    case TakeExpired =>
      var id := DelayedList(s)[0].owner;
      if id in s.event.at { OrderAfterTakeOut(s, id, Event(e)); }
    case AddToDelayed(_, ev) => if ev.Some? { OrderAfterPut(s, s.current.value, Event(ev.value), Event(e)); }
    case Notify(f) =>
      var x := ListAt(s.event, Event(f))[0];
      assert EventOrder(s, Event(f)) && x in ListAt(s.event, Event(f));
      OrderAfterTakeOut(s, x.owner, Event(e));
      OrderAfterPut(s.(event := TakeOut(s.event, x.owner)), x.owner, Pending, Event(e));
    case _ =>
  }

  lemma CurrentKept(s: State, l: Label)
    requires Inv(s) && Enabled(s, l)
    ensures CurrentKnown(Next(s, l))
  {
    hide AllPlaced, TopFits, DelaysFit, EventsOrdered, Sorted, TakeOut, Insert, Remove, HighestReady;
    if l.Choose? {
      var p := HighestReady(s, s.top);
      if ReadyList(s, p) != [] { KnownHead(s, Ready(p)); }
    }
  }

  lemma KnownHead(s: State, l: Place)
    requires Inv(s) && ListAt(s.generic, l) != []
    ensures var id := ListAt(s.generic, l)[0].owner; id in s.priority && id in s.generic.at && s.generic.at[id] == l
  {
    hide StoreOk, TopFits, DelaysFit, EventsOrdered, ListAt;
    HeadIsAt(s.generic, l);
    assert Placed(s, ListAt(s.generic, l)[0].owner);
  }

  // ---- runs ----

  lemma StepKeeps(s: State, l: Label)
    requires Inv(s) && Enabled(s, l)
    ensures Inv(Next(s, l))
  {
    hide Enabled, Next, Placed, TopFits, DelaysFit, EventOrder, StoreOk, CurrentKnown;
    StoresKept(s, l);
    forall id ensures Placed(Next(s, l), id) { PlacedKept(s, l, id); }
    TopKept(s, l);
    DelaysKept(s, l);
    forall e: nat ensures EventOrder(Next(s, l), Event(e)) { OrderKept(s, l, e); }
    CurrentKept(s, l);
  }

  // The state prvInitialiseCoRoutineLists sets up, before the first co-routine is added.
  function Initial(levels: nat, maxPriorities: nat): State {
    State(levels, maxPriorities, map[], EMPTY, EMPTY, 0, 0, 0, 0, 0, None, Resting, Nobody, 0, map[])
  }

  lemma InitialInv(levels: nat, maxPriorities: nat)
    requires levels > 0
    ensures Inv(Initial(levels, maxPriorities))
  {
    var s := Initial(levels, maxPriorities);
    assert forall l :: ListAt(EMPTY, l) == [];
    assert StoreOk(EMPTY);
  }

  predicate CanRun(s: State, ls: seq<Label>)
    decreases |ls|
  {
    ls == [] || (Enabled(s, ls[0]) && CanRun(Next(s, ls[0]), ls[1..]))
  }

  function Run(s: State, ls: seq<Label>): State
    requires CanRun(s, ls)
    decreases |ls|
  {
    if ls == [] then s else Run(Next(s, ls[0]), ls[1..])
  }

  lemma {:induction false} RunKeeps(s: State, ls: seq<Label>)
    requires Inv(s) && CanRun(s, ls)
    ensures Inv(Run(s, ls))
    decreases |ls|
  {
    hide Inv, Enabled, Next;
    if ls != [] {
      StepKeeps(s, ls[0]);
      RunKeeps(Next(s, ls[0]), ls[1..]);
    }
  }

  lemma AlwaysInv(levels: nat, maxPriorities: nat, ls: seq<Label>)
    requires levels > 0 && CanRun(Initial(levels, maxPriorities), ls)
    ensures Inv(Run(Initial(levels, maxPriorities), ls))
  {
    hide Inv, CanRun, Run;
    InitialInv(levels, maxPriorities);
    RunKeeps(Initial(levels, maxPriorities), ls);
  }

  // ---- what holds in every reachable state ----

  // List consistency.  The generic item of a co-routine is in exactly one list, the ready
  // list of its priority or one of the two delayed lists, except for the moment in which
  // the scheduler carries it over to its ready list.  Its event item is in at most one
  // list, an event list or the pending list, and if it is in one the co-routine is delayed.
  lemma ListsConsistent(s: State, id: nat)
    requires Inv(s) && id in s.priority
    ensures s.moving == Expired(id) ==>
              (forall l :: !Contains(ListAt(s.generic, l), id) && !Contains(ListAt(s.event, l), id))
    ensures s.moving != Expired(id) ==>
              && id in s.generic.at
              && s.generic.at[id] in {Ready(s.priority[id]), Delay(0), Delay(1)}
              && (forall l :: Contains(ListAt(s.generic, l), id) <==> l == s.generic.at[id])
    ensures forall l :: Contains(ListAt(s.event, l), id) ==>
              && id in s.event.at && l == s.event.at[id]
              && (l.Event? || l == Pending)
              && id in s.generic.at && s.generic.at[id].Delay?
  {
    hide TopFits, DelaysFit, EventsOrdered, ListAt, Contains;
    assert Placed(s, id);
    forall l
      ensures Contains(ListAt(s.generic, l), id) <==> id in s.generic.at && s.generic.at[id] == l
      ensures Contains(ListAt(s.event, l), id) <==> id in s.event.at && s.event.at[id] == l
    {
      assert ListOk(s.generic, l) && ListOk(s.event, l);
      ContainsOwner(ListAt(s.generic, l), id);
      ContainsOwner(ListAt(s.event, l), id);
    }
  }

  // Delays are exact across the wrap of the tick count: a co-routine whose delay is found
  // to be over was delayed until just now, and ticks are not counted past anybody's time.
  lemma DelaysAreExact(s: State)
    requires Inv(s)
    ensures Enabled(s, TakeExpired) ==>
              var id := DelayedList(s)[0].owner; id in s.wakeAt && s.wakeAt[id] == s.time
    ensures forall x :: x in DelayedList(s) || x in OverflowList(s) ==>
              && x.owner in s.wakeAt && s.time <= s.wakeAt[x.owner]
              && (Enabled(s, StepTick) ==> s.time + 1 <= s.wakeAt[x.owner])
    ensures Enabled(s, StepTick) && Next(s, StepTick).tick == 0 ==> DelayedList(s) == []
  {
    hide StoreOk, AllPlaced, TopFits, EventsOrdered, CurrentKnown, Sorted, ListAt;
    if Enabled(s, TakeExpired) {
      assert DelayedList(s)[0] in DelayedList(s);
      SameEpoch(s.time, s.wakeAt[DelayedList(s)[0].owner]);
    }
    if Enabled(s, StepTick) {
      NoneDue(s);
      if Add(s.tick, 1) == 0 { SwapFindsEmptyList(s); }
      forall x | x in OverflowList(s) ensures s.time + 1 <= s.wakeAt[x.owner] {
        assert Epoch(s.time) < Epoch(s.wakeAt[x.owner]);
      }
    }
  }

  lemma SameEpoch(time: nat, wake: nat)
    requires time <= wake && Epoch(wake) == Epoch(time) && Of(wake) <= Of(time)
    ensures wake == time
  {
  }

  // A delay asked for at time t for n ticks is a delay until t + n.
  lemma DelayedUntil(s: State, ticks: Period, ev: Option<nat>)
    requires Inv(s) && Enabled(s, AddToDelayed(ticks, ev))
    ensures var r := Next(s, AddToDelayed(ticks, ev));
            var id := s.current.value;
            && r.wakeAt[id] == s.time + ticks
            && (Item(id, Of(s.time + ticks)) in DelayedList(r) || Item(id, Of(s.time + ticks)) in OverflowList(r))
  {
    hide StoreOk, AllPlaced, TopFits, EventsOrdered, CurrentKnown, Sorted, Insert, TakeOut;
    WakeEpoch(s.time, ticks);
    var g := TakeOut(s.generic, s.current.value);
    InsertMembers(ListAt(g, Delay(s.cur)), Item(s.current.value, Add(s.tick, ticks)));
    InsertMembers(ListAt(g, Delay(Other(s.cur))), Item(s.current.value, Add(s.tick, ticks)));
  }

  // vCoRoutineSchedule runs a co-routine whenever one is ready, one of the highest priority
  // that has any, and moves it behind the others of its priority.
  lemma RunsHighestPriority(s: State)
    requires Inv(s) && Enabled(s, Choose)
    ensures var r := Next(s, Choose);
            && (r.phase == Running <==> exists p :: ReadyList(s, p) != [])
            && (r.phase == Running ==>
                  && r.current.Some? && r.current.value in s.priority
                  && var p := s.priority[r.current.value];
                     && ReadyList(s, p) != [] && ReadyList(s, p)[0].owner == r.current.value
                     && ReadyList(r, p) == ReadyList(s, p)[1..] + [ReadyList(s, p)[0]]
                     && (forall q :: q > p ==> ReadyList(s, q) == []))
  {
    hide StoreOk, AllPlaced, DelaysFit, EventsOrdered, CurrentKnown;
    var p := HighestReady(s, s.top);
    if ReadyList(s, p) != [] {
      KnownHead(s, Ready(p));
      OwnPriority(s, ReadyList(s, p)[0].owner);
    } else {
      forall q ensures ReadyList(s, q) == [] { }
    }
  }

  lemma OwnPriority(s: State, id: nat)
    requires Inv(s) && id in s.generic.at && s.generic.at[id].Ready?
    ensures id in s.priority && s.generic.at[id] == Ready(s.priority[id])
  {
    assert Placed(s, id);
  }

  // An event readies a waiting co-routine of the highest priority.
  lemma NotifiesHighestPriority(s: State, e: nat)
    requires Inv(s) && Enabled(s, Notify(e))
    ensures var id := ListAt(s.event, Event(e))[0].owner;
            && id in s.priority
            && (forall x :: x in ListAt(s.event, Event(e)) ==>
                  x.owner in s.priority && s.priority[x.owner] <= s.priority[id])
            && id in Next(s, Notify(e)).event.at && Next(s, Notify(e)).event.at[id] == Pending
  {
    hide StoreOk, AllPlaced, DelaysFit, TopFits, CurrentKnown;
    assert EventOrder(s, Event(e));
    var l := ListAt(s.event, Event(e));
    assert l[0] in l;
    forall x | x in l ensures l[0].value <= x.value {
      var i :| 0 <= i < |l| && l[i] == x;
    }
  }

  // All of it, for every run.
  lemma EveryRun(levels: nat, maxPriorities: nat, ls: seq<Label>)
    requires levels > 0 && CanRun(Initial(levels, maxPriorities), ls)
    ensures var s := Run(Initial(levels, maxPriorities), ls);
            && (forall id :: id in s.priority && s.moving != Expired(id) ==>
                  && id in s.generic.at
                  && (forall l :: Contains(ListAt(s.generic, l), id) <==> l == s.generic.at[id]))
            && (forall id, l :: id in s.priority && Contains(ListAt(s.event, l), id) ==>
                  && id in s.event.at && l == s.event.at[id]
                  && id in s.generic.at && s.generic.at[id].Delay?)
            && (forall p :: p > s.top ==> ReadyList(s, p) == [])
            && (Enabled(s, TakeExpired) ==>
                  var id := DelayedList(s)[0].owner; id in s.wakeAt && s.wakeAt[id] == s.time)
            && (Enabled(s, StepTick) && Next(s, StepTick).tick == 0 ==> DelayedList(s) == [])
  {
    hide Run, CanRun, Enabled, Next, StoreOk, Placed, DelaysFit, EventsOrdered, CurrentKnown, Contains, ListAt;
    AlwaysInv(levels, maxPriorities, ls);
    var s := Run(Initial(levels, maxPriorities), ls);
    DelaysAreExact(s);
    forall id | id in s.priority
      ensures s.moving != Expired(id) ==>
                && id in s.generic.at
                && (forall l :: Contains(ListAt(s.generic, l), id) <==> l == s.generic.at[id])
      ensures forall l :: Contains(ListAt(s.event, l), id) ==>
                id in s.event.at && id in s.generic.at && s.generic.at[id].Delay? && l == s.event.at[id]
    {
      ListsConsistent(s, id);
    }
  }

  // ---- the source's functions ----

  lemma {:induction false} RunAppend(s: State, a: seq<Label>, b: seq<Label>)
    requires CanRun(s, a) && CanRun(Run(s, a), b)
    ensures CanRun(s, a + b) && Run(s, a + b) == Run(Run(s, a), b)
    decreases |a|
  {
    hide Enabled, Next;
    if a == [] {
      assert a + b == b;
    } else {
      RunAppend(Next(s, a[0]), a[1..], b);
      assert (a + b)[1..] == a[1..] + b;
    }
  }

  // One more step at the end of a run.
  lemma OneStepMore(s: State, ls: seq<Label>, l: Label)
    requires CanRun(s, ls) && Enabled(Run(s, ls), l)
    ensures CanRun(s, ls + [l]) && Run(s, ls + [l]) == Next(Run(s, ls), l)
  {
    hide Enabled, Next;
    RunAppend(s, ls, [l]);
  }

  lemma HeadGoesAway(st: Store, l: Place)
    requires StoreOk(st) && ListAt(st, l) != []
    ensures var id := ListAt(st, l)[0].owner;
            id in st.at && st.at[id] == l && |ListAt(TakeOut(st, id), l)| < |ListAt(st, l)|
  {
    HeadIsAt(st, l);
  }

  // The file's static variables and functions.  Every call is a run of the steps above;
  // here nothing interrupts it.
  class Scheduler {
    const levels: nat
    const maxPriorities: nat
    var priority: map<nat, nat>
    var generic: Store
    var event: Store
    var cur: nat
    var uxTopCoRoutineReadyPriority: nat
    var xCoRoutineTickCount: Tick
    var xLastTickCount: Tick
    var xPassedTicks: Tick
    var pxCurrentCoRoutine: Option<nat>
    ghost var phase: Phase
    ghost var moving: Moving
    ghost var time: nat
    ghost var wakeAt: map<nat, nat>

    ghost function Now(): State
      reads this
    {
      State(levels, maxPriorities, priority, generic, event, cur, uxTopCoRoutineReadyPriority, xCoRoutineTickCount,
            xLastTickCount, xPassedTicks, pxCurrentCoRoutine, phase, moving, time, wakeAt)
    }

    constructor (levels: nat, maxPriorities: nat)
      requires levels > 0
      ensures Now() == Initial(levels, maxPriorities) && Inv(Now())
    {
      this.levels, this.maxPriorities := levels, maxPriorities;
      priority, generic, event, cur := map[], EMPTY, EMPTY, 0;
      uxTopCoRoutineReadyPriority, xCoRoutineTickCount, xLastTickCount, xPassedTicks := 0, 0, 0, 0;
      pxCurrentCoRoutine, phase, moving, time, wakeAt := None, Resting, Nobody, 0, map[];
      InitialInv(levels, maxPriorities);
    }

    // prvAddCoRoutineToReadyQueue
    method AddCoRoutineToReadyQueue(id: nat)
      requires id in priority
      modifies this`uxTopCoRoutineReadyPriority, this`generic
      ensures Now() == AddToReadyQueue(old(Now()), id)
    {
      if priority[id] > uxTopCoRoutineReadyPriority {
        uxTopCoRoutineReadyPriority := priority[id];
      }
      generic := PutEnd(generic, Ready(priority[id]), Item(id, 0));
    }

    // xCoRoutineCreate, when the memory is there
    method CoRoutineCreate(id: nat, uxPriority: nat)
      requires Inv(Now()) && Enabled(Now(), Create(id, uxPriority))
      modifies this
      ensures Now() == Next(old(Now()), Create(id, uxPriority)) && Inv(Now())
    {
      StepKeeps(Now(), Create(id, uxPriority));
      if pxCurrentCoRoutine == None {
        pxCurrentCoRoutine := Some(id);
      }
      var p := uxPriority;
      if p >= levels {
        p := levels - 1;
      }
      priority := priority[id := p];
      AddCoRoutineToReadyQueue(id);
    }

    // vCoRoutineAddToDelayedList, called by the running co-routine
    method CoRoutineAddToDelayedList(xTicksToDelay: Period, eventList: Option<nat>)
      requires Inv(Now()) && Enabled(Now(), AddToDelayed(xTicksToDelay, eventList))
      modifies this
      ensures Now() == Next(old(Now()), AddToDelayed(xTicksToDelay, eventList)) && Inv(Now())
    {
      hide Inv, TakeOut, PutSorted, Add;
      StepKeeps(Now(), AddToDelayed(xTicksToDelay, eventList));
      var id := pxCurrentCoRoutine.value;
      var xTimeToWake := Add(xCoRoutineTickCount, xTicksToDelay);
      generic := TakeOut(generic, id);
      if xTimeToWake < xCoRoutineTickCount {
        generic := PutSorted(generic, Delay(Other(cur)), Item(id, xTimeToWake));
      } else {
        generic := PutSorted(generic, Delay(cur), Item(id, xTimeToWake));
      }
      if eventList.Some? {
        event := PutSorted(event, Event(eventList.value), Item(id, maxPriorities - priority[id]));
      }
      wakeAt := wakeAt[id := time + xTicksToDelay];
    }

    // xCoRoutineRemoveFromEventList, called from an interrupt
    method CoRoutineRemoveFromEventList(e: nat) returns (xReturn: bool)
      requires Inv(Now()) && ListAt(event, Event(e)) != []
      modifies this`event
      ensures Enabled(old(Now()), Notify(e)) && Now() == Next(old(Now()), Notify(e)) && Inv(Now())
      ensures var id := old(ListAt(event, Event(e))[0].owner);
              id in priority && pxCurrentCoRoutine.Some? && pxCurrentCoRoutine.value in priority
              && xReturn == (priority[id] >= priority[pxCurrentCoRoutine.value])
    {
      HeadIsAt(event, Event(e));
      assert DelaysFit(Now());
      StepKeeps(Now(), Notify(e));
      NotifiesHighestPriority(Now(), e);
      var x := ListAt(event, Event(e))[0];
      event := TakeOut(event, x.owner);
      event := PutEnd(event, Pending, x);
      xReturn := priority[x.owner] >= priority[pxCurrentCoRoutine.value];
    }

    // Lines 245-250: the critical section of prvCheckPendingReadyList
    method TakePendingHead() returns (id: nat)
      requires Inv(Now()) && phase == CheckingPending && moving == Nobody && ListAt(event, Pending) != []
      modifies this`event, this`moving
      ensures Enabled(old(Now()), TakePending) && Now() == Next(old(Now()), TakePending) && Inv(Now())
      ensures moving == Readied(id) && |event.at| < |old(event.at)|
    {
      HeadGoesAway(event, Pending);
      FewerAt(event.at, ListAt(event, Pending)[0].owner);
      assert DelaysFit(Now());
      StepKeeps(Now(), TakePending);
      id := ListAt(event, Pending)[0].owner;
      event := TakeOut(event, id);
      moving := Readied(id);
    }

    // Lines 252-253
    method ReadyPending(id: nat)
      requires Inv(Now()) && moving == Readied(id)
      modifies this
      ensures Enabled(old(Now()), PutReady) && Now() == Next(old(Now()), PutReady) && Inv(Now())
      ensures event == old(event)
    {
      assert DelaysFit(Now()) && Placed(Now(), id);
      StepKeeps(Now(), PutReady);
      generic := TakeOut(generic, id);
      AddCoRoutineToReadyQueue(id);
      moving := Nobody;
    }

    // Interrupts signal events.  env says, for each point of a call at which the source can
    // be interrupted, which events are signalled there; an event for which nobody waits does
    // nothing, as the callers of xCoRoutineRemoveFromEventList see to.
    method Interrupts(env: seq<seq<nat>>, ghost start: State, ghost before: seq<Label>)
      returns (left: seq<seq<nat>>, ghost ls: seq<Label>)
      requires Inv(Now()) && Reached(start, before, Now())
      modifies this`event
      ensures Inv(Now()) && Reached(start, ls, Now())
      ensures |event.at| == |old(event.at)|
      ensures left == if env == [] then [] else env[1..]
    {
      hide Inv, Reached;
      left, ls := [], before;
      if env != [] {
        left := env[1..];
        var i := 0;
        while i < |env[0]|
          invariant Inv(Now()) && Reached(start, ls, Now())
          invariant |event.at| == |old(event.at)|
        {
          if ListAt(event, Event(env[0][i])) != [] {
            NotifyKeepsCount(Now(), env[0][i]);
            var ignored := CoRoutineRemoveFromEventList(env[0][i]);
            Reaches(start, ls, Notify(env[0][i]));
            ls := ls + [Notify(env[0][i])];
          }
          i := i + 1;
        }
      }
    }

    // prvCheckPendingReadyList
    method CheckPendingReadyList(env: seq<seq<nat>>, ghost start: State, ghost before: seq<Label>)
      returns (left: seq<seq<nat>>, ghost ls: seq<Label>)
      requires Inv(Now()) && phase == CheckingPending && moving == Nobody && Reached(start, before, Now())
      modifies this
      ensures Inv(Now()) && phase == CheckingPending && moving == Nobody
      ensures ListAt(event, Pending) == []
      ensures Reached(start, ls, Now())
    {
      hide Inv, Reached;
      left, ls := Interrupts(env, start, before);
      while ListAt(event, Pending) != []
        invariant Inv(Now()) && phase == CheckingPending && moving == Nobody
        invariant Reached(start, ls, Now())
        decreases |event.at|
      {
        var id := TakePendingHead();
        Reaches(start, ls, TakePending);
        left, ls := Interrupts(left, start, ls + [TakePending]);
        ReadyPending(id);
        Reaches(start, ls, PutReady);
        left, ls := Interrupts(left, start, ls + [PutReady]);
      }
    }

    // Lines 265-278
    method CountTick()
      requires Inv(Now()) && phase == Ticking && moving == Nobody && xPassedTicks > 0 && !Due(Now())
      modifies this
      ensures Enabled(old(Now()), StepTick) && Now() == Next(old(Now()), StepTick) && Inv(Now())
    {
      assert DelaysFit(Now());
      StepKeeps(Now(), StepTick);
      xCoRoutineTickCount := Add(xCoRoutineTickCount, 1);
      xPassedTicks := xPassedTicks - 1;
      time := time + 1;
      if xCoRoutineTickCount == 0 {
        cur := Other(cur);
      }
    }

    // Lines 283-306
    method TakeExpiredHead() returns (id: nat)
      requires Inv(Now()) && phase == Ticking && moving == Nobody && Due(Now())
      modifies this`generic, this`event, this`moving
      ensures Enabled(old(Now()), TakeExpired) && Now() == Next(old(Now()), TakeExpired) && Inv(Now())
      ensures moving == Expired(id) && |DelayedList(Now())| < |DelayedList(old(Now()))|
    {
      HeadGoesAway(generic, Delay(cur));
      assert DelaysFit(Now());
      StepKeeps(Now(), TakeExpired);
      id := ListAt(generic, Delay(cur))[0].owner;
      generic := TakeOut(generic, id);
      if id in event.at {
        event := TakeOut(event, id);
      }
      moving := Expired(id);
    }

    // Line 308
    method ReadyExpired(id: nat)
      requires Inv(Now()) && moving == Expired(id)
      modifies this
      ensures Enabled(old(Now()), PutReady) && Now() == Next(old(Now()), PutReady) && Inv(Now())
      ensures DelayedList(Now()) == DelayedList(old(Now()))
    {
      assert DelaysFit(Now()) && Placed(Now(), id);
      StepKeeps(Now(), PutReady);
      AddCoRoutineToReadyQueue(id);
      moving := Nobody;
    }

    // The inner loop of prvCheckDelayedList
    method WakeExpired(env: seq<seq<nat>>, ghost start: State, ghost before: seq<Label>)
      returns (left: seq<seq<nat>>, ghost ls: seq<Label>)
      requires Inv(Now()) && phase == Ticking && moving == Nobody && Reached(start, before, Now())
      modifies this
      ensures Inv(Now()) && phase == Ticking && moving == Nobody && !Due(Now())
      ensures xCoRoutineTickCount == old(xCoRoutineTickCount) && xPassedTicks == old(xPassedTicks)
      ensures Reached(start, ls, Now())
    {
      hide Inv, Reached;
      left, ls := env, before;
      while ListAt(generic, Delay(cur)) != []
        invariant Inv(Now()) && phase == Ticking && moving == Nobody
        invariant xCoRoutineTickCount == old(xCoRoutineTickCount) && xPassedTicks == old(xPassedTicks)
        invariant Reached(start, ls, Now())
        decreases |DelayedList(Now())|
      {
        left, ls := Interrupts(left, start, ls);
        if xCoRoutineTickCount < ListAt(generic, Delay(cur))[0].value {
          break;
        }
        var id := TakeExpiredHead();
        Reaches(start, ls, TakeExpired);
        left, ls := Interrupts(left, start, ls + [TakeExpired]);
        ReadyExpired(id);
        Reaches(start, ls, PutReady);
        ls := ls + [PutReady];
      }
    }

    // One turn of the outer loop of prvCheckDelayedList
    method CountAndWake(env: seq<seq<nat>>, ghost start: State, ghost before: seq<Label>)
      returns (left: seq<seq<nat>>, ghost ls: seq<Label>)
      requires Inv(Now()) && phase == Ticking && moving == Nobody && !Due(Now()) && xPassedTicks > 0
      requires Reached(start, before, Now())
      modifies this
      ensures Inv(Now()) && phase == Ticking && moving == Nobody && !Due(Now())
      ensures xCoRoutineTickCount == Add(old(xCoRoutineTickCount), 1) && xPassedTicks == old(xPassedTicks) - 1
      ensures Reached(start, ls, Now())
    {
      hide Inv, Reached, Add;
      left, ls := Interrupts(env, start, before);
      CountTick();
      Reaches(start, ls, StepTick);
      left, ls := WakeExpired(left, start, ls + [StepTick]);
    }

    // Its end
    method EndCounting()
      requires Inv(Now()) && phase == Ticking && moving == Nobody && !Due(Now()) && xPassedTicks == 0
      modifies this`xLastTickCount, this`phase
      ensures Enabled(old(Now()), EndTicks) && Now() == Next(old(Now()), EndTicks) && Inv(Now())
      ensures phase == Choosing && xLastTickCount == xCoRoutineTickCount
    {
      hide Inv;
      InvFacts(Now());
      StepKeeps(Now(), EndTicks);
      xLastTickCount := xCoRoutineTickCount;
      phase := Choosing;
    }

    // Its beginning
    method BeginCounting(now: Tick)
      requires Inv(Now()) && phase == CheckingPending && moving == Nobody && ListAt(event, Pending) == []
      modifies this`xPassedTicks, this`phase
      ensures Enabled(old(Now()), EndPending(now)) && Now() == Next(old(Now()), EndPending(now)) && Inv(Now())
      ensures phase == Ticking && !Due(Now()) && Add(xCoRoutineTickCount, xPassedTicks) == now
    {
      hide Inv, Add, Sub;
      InvFacts(Now());
      NotDueYet(Now());
      StepKeeps(Now(), EndPending(now));
      SubBack(now, xLastTickCount);
      xPassedTicks := Sub(now, xLastTickCount);
      phase := Ticking;
    }

    // prvCheckDelayedList; now is what xTaskGetTickCount returns.  The test that ended the
    // loop over the pending list and that call are one step: an interrupt between them
    // might as well come after both.
    method CheckDelayedList(now: Tick, env: seq<seq<nat>>, ghost start: State, ghost before: seq<Label>)
      returns (left: seq<seq<nat>>, ghost ls: seq<Label>)
      requires Inv(Now()) && phase == CheckingPending && moving == Nobody && ListAt(event, Pending) == []
      requires Reached(start, before, Now())
      modifies this
      ensures Inv(Now()) && phase == Choosing && moving == Nobody
      ensures xCoRoutineTickCount == now && xLastTickCount == now
      ensures Reached(start, ls, Now())
    {
      hide Inv, Reached, Add;
      BeginCounting(now);
      Reaches(start, before, EndPending(now));
      left, ls := env, before + [EndPending(now)];
      while xPassedTicks > 0
        invariant Inv(Now()) && phase == Ticking && moving == Nobody && !Due(Now())
        invariant Add(xCoRoutineTickCount, xPassedTicks) == now
        invariant Reached(start, ls, Now())
      {
        TickCloser(xCoRoutineTickCount, xPassedTicks);
        left, ls := CountAndWake(left, start, ls);
      }
      left, ls := Interrupts(left, start, ls);
      AddZero(xCoRoutineTickCount);
      EndCounting();
      Reaches(start, ls, EndTicks);
      ls := ls + [EndTicks];
    }

    // Lines 324-343, up to the call
    method ChooseNext()
      requires Inv(Now()) && phase == Choosing
      modifies this
      ensures Enabled(old(Now()), Choose) && Now() == Next(old(Now()), Choose) && Inv(Now())
      ensures (phase == Running || phase == Resting) && xCoRoutineTickCount == old(xCoRoutineTickCount)
    {
      hide Inv;
      InvFacts(Now());
      StepKeeps(Now(), Choose);
      ghost var chosen := Next(Now(), Choose);
      ghost var top := uxTopCoRoutineReadyPriority;
      ghost var before := Now();
      while ListAt(generic, Ready(uxTopCoRoutineReadyPriority)) == []
        invariant Now() == before.(top := uxTopCoRoutineReadyPriority)
        invariant HighestReady(before, top) == HighestReady(before, uxTopCoRoutineReadyPriority)
        decreases uxTopCoRoutineReadyPriority
      {
        if uxTopCoRoutineReadyPriority == 0 {
          phase := Resting;
          assert Now() == chosen;
          return;
        }
        uxTopCoRoutineReadyPriority := uxTopCoRoutineReadyPriority - 1;
      }
      var p := Ready(uxTopCoRoutineReadyPriority);
      pxCurrentCoRoutine := Some(ListAt(generic, p)[0].owner);
      generic := Rotate(generic, p);
      phase := Running;
      assert Now() == chosen;
    }

    // vCoRoutineSchedule, up to the call of the co-routine function it has chosen, with
    // interrupts at any point.
    method CoRoutineSchedule(now: Tick, env: seq<seq<nat>>) returns (ghost ls: seq<Label>)
      requires Inv(Now()) && phase == Resting && moving == Nobody
      modifies this
      ensures Inv(Now()) && (phase == Running || phase == Resting)
      ensures xCoRoutineTickCount == now
      ensures CanRun(old(Now()), ls) && Now() == Run(old(Now()), ls)
    {
      hide Inv, CanRun, Run;
      ghost var start := Now();
      InvFacts(start);
      StepKeeps(start, Begin);
      EmptyRun(start);
      Reaches(start, [], Begin);
      phase := CheckingPending;
      var left: seq<seq<nat>>;
      left, ls := CheckPendingReadyList(env, start, [] + [Begin]);
      left, ls := CheckDelayedList(now, left, start, ls);
      left, ls := Interrupts(left, start, ls);
      ChooseNext();
      Reaches(start, ls, Choose);
      ls := ls + [Choose];
    }
  }

  // Labels ls lead from one state to another.
  predicate Reached(start: State, ls: seq<Label>, s: State) { CanRun(start, ls) && Run(start, ls) == s }

  lemma Reaches(start: State, ls: seq<Label>, l: Label)
    ensures forall s :: Reached(start, ls, s) && Enabled(s, l) ==> Reached(start, ls + [l], Next(s, l))
  {
    hide CanRun, Run, Enabled, Next;
    forall s | Reached(start, ls, s) && Enabled(s, l) ensures Reached(start, ls + [l], Next(s, l)) {
      OneStepMore(start, ls, l);
    }
  }

  lemma FewerAt(at: map<nat, Place>, id: nat)
    requires id in at
    ensures |at - {id}| < |at|
  {
    assert |at - {id}| == |(at - {id}).Keys| && (at - {id}).Keys == at.Keys - {id};
    assert |at| == |at.Keys|;
  }

  // An interrupt moves an event item, it does not make or lose one.
  lemma NotifyKeepsCount(s: State, e: nat)
    requires Inv(s) && ListAt(s.event, Event(e)) != []
    ensures Enabled(s, Notify(e)) && |Next(s, Notify(e)).event.at| == |s.event.at|
  {
    PendingHead(s, Event(e));
    assert DelaysFit(s);
    var r := Next(s, Notify(e));
    assert r.event.at.Keys == s.event.at.Keys;
    assert |r.event.at| == |r.event.at.Keys| && |s.event.at| == |s.event.at.Keys|;
  }

  lemma EmptyRun(s: State)
    ensures CanRun(s, []) && Run(s, []) == s
  {
  }

  lemma InvFacts(s: State)
    requires Inv(s)
    ensures s.cur < 2 && (s.phase != Ticking ==> s.lastTick == s.tick)
  {
  }

  // Outside the counting of ticks nobody is due: every delay ends later than now.
  lemma NotDueYet(s: State)
    requires Inv(s) && s.phase != Ticking
    ensures !Due(s)
  {
    hide StoreOk, AllPlaced, TopFits, EventsOrdered, CurrentKnown, DelaysFit;
    if DelayedList(s) != [] { EndsLater(s, DelayedList(s)[0]); }
  }

  lemma EndsLater(s: State, x: Item)
    requires DelaysFit(s) && s.phase != Ticking && x in DelayedList(s)
    ensures s.tick < x.value
  {
    assert DelayFits(s, x, Epoch(s.time));
    LaterTick(s.time, s.wakeAt[x.owner]);
  }

  lemma LaterTick(time: nat, wake: nat)
    requires time < wake && Epoch(time) == Epoch(wake)
    ensures Of(time) < Of(wake)
  {
  }

  lemma SubBack(now: Tick, last: Tick)
    ensures Add(last, Sub(now, last)) == now
  {
  }

  lemma AddZero(tick: Tick)
    ensures Add(tick, 0) == tick
  {
  }

  lemma TickCloser(tick: Tick, passed: Tick)
    requires passed > 0
    ensures Add(Add(tick, 1), passed - 1) == Add(tick, passed)
  {
  }
}
