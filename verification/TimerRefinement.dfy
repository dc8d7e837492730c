// The code of timers_rtos.c, with its two lists and its wrapping ticks, does what the
// ideal service over true time does, step by step and over every run.
module TimerRefinement {
  import opened Basics
  import opened Ticks
  import opened SortedList
  import opened TimerDaemon
  import opened IdealTimers

  ghost predicate Matches(m: Message, r: Request) {
    && m.command == r.command
    && m.timer == r.timer
    && (m.command == Start ==> m.value == Of(r.value))
    && (m.command == ChangePeriod ==> m.value == r.value)
  }

  ghost predicate QueueMatches(ms: seq<Message>, rs: seq<Request>) {
    |ms| == |rs| && forall i :: 0 <= i < |ms| ==> Matches(ms[i], rs[i])
  }

  // The expiry times of both lists in true time, in epoch k.
  function Merged(current: seq<Item>, overflow: seq<Item>, k: nat): seq<Item> {
    Shift(current, Boundary(k)) + Shift(overflow, Boundary(k + 1))
  }

  // The current list holds the expiry times of the epoch of the last sample, the
  // overflow list those of the next epoch, each modulo the wrap, and together, in order,
  // they are the one list of the ideal service.
  ghost predicate Related(d: Daemon, s: Service) {
    var k := Epoch(s.now);
    && Valid(d)
    && WellFormed(s)
    && d.lastTime == Of(s.now)
    && s.active == Merged(d.current, d.overflow, k)
    && d.timers == s.timers
    && d.fired == s.fired
    && QueueMatches(d.queue, s.queue)
  }

  lemma RelatedFacts(d: Daemon, s: Service)
    requires Related(d, s)
    ensures Valid(d) && WellFormed(s) && d.lastTime == Of(s.now)
    ensures d.timers == s.timers && d.fired == s.fired && QueueMatches(d.queue, s.queue)
  {
    hide Valid, WellFormed, Shift, QueueMatches, Of, Epoch;
  }

  lemma ListedAfterInsert(l: seq<Item>, timers: map<nat, Timer>, x: Item)
    requires Listed(l, timers) && 0 <= x.value < WRAP && x.owner in timers
    ensures Listed(Insert(l, x), timers)
  {
    hide Insert;
    InsertMembers(l, x);
  }

  lemma MergedInsertCurrent(current: seq<Item>, overflow: seq<Item>, k: nat, timers: map<nat, Timer>, timer: nat,
      expiry: nat)
    requires Listed(current, timers) && Listed(overflow, timers) && Epoch(expiry) == k
    ensures Merged(Insert(current, Item(timer, Of(expiry))), overflow, k)
            == Insert(Merged(current, overflow, k), Item(timer, expiry))
  {
    hide Insert, Of, Epoch;
    Parts(expiry);
    PartsUnique(0, k);
    ShiftInsert(current, Item(timer, Of(expiry)), Boundary(k));
    var later := Shift(overflow, Boundary(k + 1));
    forall j | 0 <= j < |later| ensures expiry < later[j].value {
      assert overflow[j] in overflow;
    }
    InsertInFront(Shift(current, Boundary(k)), later, Item(timer, expiry));
  }

  lemma MergedInsertOverflow(current: seq<Item>, overflow: seq<Item>, k: nat, timers: map<nat, Timer>, timer: nat,
      expiry: nat)
    requires Listed(current, timers) && Listed(overflow, timers) && Epoch(expiry) == k + 1
    ensures Merged(current, Insert(overflow, Item(timer, Of(expiry))), k)
            == Insert(Merged(current, overflow, k), Item(timer, expiry))
  {
    hide Insert, Of, Epoch;
    Parts(expiry);
    PartsUnique(0, k);
    ShiftInsert(overflow, Item(timer, Of(expiry)), Boundary(k + 1));
    var sooner := Shift(current, Boundary(k));
    forall j | 0 <= j < |sooner| ensures sooner[j].value <= expiry {
      assert current[j] in current;
    }
    InsertBehind(sooner, Shift(overflow, Boundary(k + 1)), Item(timer, expiry));
  }

  lemma ScheduleInCurrent(d: Daemon, s: Service, timer: nat, expiry: nat)
    requires Related(d, s) && timer in s.timers && !Contains(s.active, timer)
    requires Epoch(expiry) == Epoch(s.now)
    ensures Related(d.(current := Insert(d.current, Item(timer, Of(expiry)))), Schedule(s, timer, expiry))
  {
    hide Listed, Sorted, Distinct, Contains, Insert, Shift, Merged, Epoch, QueueMatches, WellFormed;
    ListedAfterInsert(d.current, d.timers, Item(timer, Of(expiry)));
    MergedInsertCurrent(d.current, d.overflow, Epoch(s.now), d.timers, timer, expiry);
  }

  lemma ScheduleInOverflow(d: Daemon, s: Service, timer: nat, expiry: nat)
    requires Related(d, s) && timer in s.timers && !Contains(s.active, timer)
    requires Epoch(expiry) == Epoch(s.now) + 1
    ensures Related(d.(overflow := Insert(d.overflow, Item(timer, Of(expiry)))), Schedule(s, timer, expiry))
  {
    hide Listed, Sorted, Distinct, Contains, Insert, Shift, Merged, Epoch, QueueMatches, WellFormed;
    ListedAfterInsert(d.overflow, d.timers, Item(timer, Of(expiry)));
    MergedInsertOverflow(d.current, d.overflow, Epoch(s.now), d.timers, timer, expiry);
  }

  // A right decision puts the timer where the ideal list wants it.
  lemma InsertTimerRefines(d: Daemon, s: Service, timer: nat, stamp: nat)
    requires Related(d, s) && timer in s.timers && !Contains(s.active, timer)
    requires Timely(stamp, s.now, s.timers[timer].period)
    ensures var P := s.timers[timer].period;
            var next := Add(Of(stamp), P);
            var decision := Decide(next, Of(s.now), Of(stamp), P);
            && (decision == Immediately <==> stamp + P <= s.now)
            && (decision != Immediately ==>
                  Related(InsertTimerInActiveList(d, timer, next, decision), Schedule(s, timer, stamp + P)))
  {
    hide Related, Valid, WellFormed, Schedule, Contains, Insert, Decide, Timely, Add, Of, Epoch;
    RelatedFacts(d, s);
    var P := s.timers[timer].period;
    AddOf(stamp, P);
    DecisionIsExact(stamp, s.now, P);
    match Decide(Add(Of(stamp), P), Of(s.now), Of(stamp), P)
    case Immediately =>
    case IntoCurrent => ScheduleInCurrent(d, s, timer, stamp + P);
    case IntoOverflow => ScheduleInOverflow(d, s, timer, stamp + P);
  }

  lemma ShiftTail(l: seq<Item>, delta: int)
    requires l != []
    ensures Shift(l, delta)[1..] == Shift(l[1..], delta)
    ensures Shift(l, delta)[0] == Item(l[0].owner, l[0].value + delta)
  {
  }

  // The head of the current list is the head of the ideal list.
  lemma HeadRelated(d: Daemon, s: Service)
    requires Related(d, s) && d.current != []
    ensures s.active != [] && s.active[0] == Item(d.current[0].owner, d.current[0].value + Boundary(Epoch(s.now)))
    ensures 0 <= d.current[0].value < WRAP && d.current[0].owner in d.timers
    ensures Related(d.(current := d.current[1..]), s.(active := s.active[1..]))
    ensures !Contains(s.active[1..], d.current[0].owner)
  {
    hide Contains, Sorted, Distinct, Insert, QueueMatches, Of, Epoch, Shift;
    assert d.current[0] in d.current;
    var k := Epoch(s.now);
    var a, b := Shift(d.current, Boundary(k)), Shift(d.overflow, Boundary(k + 1));
    ShiftTail(d.current, Boundary(k));
    assert s.active[0] == a[0];
    assert s.active[1..] == a[1..] + b;
    HeadIsGone(s.active);
  }

  // A list without items of the epoch means that the ideal list starts in the next one.
  lemma EmptyRelated(d: Daemon, s: Service)
    requires Related(d, s) && d.current == []
    ensures s.active == [] || Boundary(Epoch(s.now) + 1) <= s.active[0].value
  {
    if d.overflow != [] { assert d.overflow[0] in d.overflow; }
  }

  lemma SendRelated(d: Daemon, s: Service, m: Message, r: Request)
    requires Related(d, s) && Matches(m, r)
    ensures Related(Send(d, m), Ask(s, r))
  {
    hide Listed, Sorted, Distinct, Shift, Of, Epoch;
  }

  lemma CallBackRelated(d: Daemon, s: Service, timer: nat)
    requires Related(d, s)
    ensures Related(CallBack(d, timer), Fire(s, timer))
  {
    hide Listed, Sorted, Distinct, Shift, Of, Epoch, QueueMatches;
  }

  lemma ExpiredTimerRefines(d: Daemon, s: Service)
    requires Related(d, s) && d.current != [] && d.current[0].value <= d.lastTime
    ensures s.active != []
    ensures Related(ProcessExpiredTimer(d, d.current[0].value, d.lastTime), Expire(s))
  {
    hide Related, Valid, Sorted, Distinct, Contains, Insert, Schedule, Decide;
    hide Add, Epoch, Of, Boundary, Shift;
    RelatedFacts(d, s);
    HeadRelated(d, s);
    var e := s.active[0].value;
    Parts(s.now);
    PartsUnique(d.current[0].value, Epoch(s.now));
    var t := s.active[0].owner;
    var d1, s1 := d.(current := d.current[1..]), s.(active := s.active[1..]);
    RelatedFacts(d1, s1);
    if s.timers[t].autoReload {
      var P := s.timers[t].period;
      InsertTimerRefines(d1, s1, t, e);
      AddOf(e, P);
      if e + P <= s.now {
        SendRelated(d1, s1, Message(Start, Of(e), t), Request(Start, e, t));
        CallBackRelated(Send(d1, Message(Start, Of(e), t)), Ask(s1, Request(Start, e, t)), t);
      } else {
        var decision := Decide(Add(Of(e), P), Of(s.now), Of(e), P);
        CallBackRelated(InsertTimerInActiveList(d1, t, Add(Of(e), P), decision), Schedule(s1, t, e + P), t);
      }
    } else {
      CallBackRelated(d1, s1, t);
    }
  }

  // The reload test of prvSwitchTimerLists, xReloadTime > xNextExpireTime, asks whether the
  // next expiry is in the same epoch.
  lemma ReloadInEpoch(v: Tick, k: nat, period: Period)
    ensures var e := v + Boundary(k);
            && Add(v, period) == Of(e + period)
            && (Add(v, period) > v <==> e + period < Boundary(k + 1))
            && (Add(v, period) > v ==> Epoch(e + period) == k)
  {
  }

  lemma {:induction false} DrainRefines(d: Daemon, s: Service)
    requires Related(d, s)
    ensures Related(DrainCurrentList(d), CatchUp(s, Boundary(Epoch(s.now) + 1)))
    ensures CatchUp(s, Boundary(Epoch(s.now) + 1)).now == s.now
    decreases Slack(d.current, WRAP)
  {
    hide Related, Valid, Sorted, Distinct, Contains, Insert, Slack, Listed;
    hide Add, Of, Epoch, Boundary, Shift;
    RelatedFacts(d, s);
    if d.current == [] {
      EmptyRelated(d, s);
    } else {
      HeadRelated(d, s);
      var head := d.current[0];
      var d0, s0 := d.(current := d.current[1..]), s.(active := s.active[1..]);
      CallBackRelated(d0, s0, head.owner);
      var d1, s1 := CallBack(d0, head.owner), Fire(s0, head.owner);
      RelatedFacts(d1, s1);
      var timer := d.timers[head.owner];
      var e := s.active[0].value;
      var reload := Add(head.value, timer.period);
      DrainStep(d.current, Item(head.owner, reload));
      ReloadInEpoch(head.value, Epoch(s.now), timer.period);
      PartsUnique(head.value, Epoch(s.now));
      if !timer.autoReload {
        DrainRefines(d1, s1);
      } else if reload > head.value {
        ScheduleInCurrent(d1, s1, head.owner, e + timer.period);
        DrainRefines(d1.(current := Insert(d1.current, Item(head.owner, reload))),
                     Schedule(s1, head.owner, e + timer.period));
      } else {
        SendRelated(d1, s1, Message(Start, head.value, head.owner), Request(Start, e, head.owner));
        DrainRefines(Send(d1, Message(Start, head.value, head.owner)), Ask(s1, Request(Start, e, head.owner)));
      }
    }
  }

  lemma SampleRefines(d: Daemon, s: Service, now: nat)
    requires Related(d, s) && s.now <= now < s.now + WRAP
    ensures Related(SampleTimeNow(d, Of(now)).0, ReadClock(s, now))
    ensures SampleTimeNow(d, Of(now)).1 <==> Epoch(now) != Epoch(s.now)
  {
    hide Contains, Sorted, Distinct, Insert, QueueMatches, Listed, CatchUp, Add;
    WrapIsVisible(s.now, now);
    if Epoch(now) != Epoch(s.now) {
      DrainRefines(d, s);
      var e := DrainCurrentList(d);
      assert Shift(e.current, Boundary(Epoch(s.now))) == [];
      assert Shift([], Boundary(Epoch(now) + 1)) == [];
    }
  }

  lemma WakeRefines(d: Daemon, s: Service, now: nat)
    requires Related(d, s) && s.now <= now < s.now + WRAP
    ensures Related(ProcessTimerOrBlock(d, Of(now)), Wake(s, now))
  {
    SampleRefines(d, s, now);
    var (d1, switched) := SampleTimeNow(d, Of(now));
    var s1 := ReadClock(s, now);
    if !switched {
      if d1.current == [] {
        EmptyRelated(d1, s1);
      } else {
        HeadRelated(d1, s1);
        if d1.current[0].value <= Of(now) { ExpiredTimerRefines(d1, s1); }
      }
    }
  }

  // What the environment owes the daemon when a command is taken from the queue.
  ghost predicate Acceptable(r: Request, s: Service) {
    && Sensible(r, s.timers)
    && (r.command == Start ==> Timely(r.value, s.now, s.timers[r.timer].period))
  }

  lemma RemoveRelated(d: Daemon, s: Service, timer: nat)
    requires Related(d, s)
    ensures Related(d.(current := Remove(d.current, timer), overflow := Remove(d.overflow, timer)),
                    s.(active := Remove(s.active, timer)))
    ensures !Contains(Remove(s.active, timer), timer)
  {
    hide Sorted, Distinct, Contains, Remove, Merged, Shift, Of, Epoch, Boundary, QueueMatches, Listed;
    ListedAfterRemove(d.current, d.timers, timer);
    ListedAfterRemove(d.overflow, d.timers, timer);
    RemoveMembers(s.active, timer);
    RemoveKeepsOrder(s.active, timer);
    RemoveContains(s.active, timer, timer);
    MergedRemove(d.current, d.overflow, Epoch(s.now), timer);
  }

  lemma MergedRemove(current: seq<Item>, overflow: seq<Item>, k: nat, timer: nat)
    ensures Merged(Remove(current, timer), Remove(overflow, timer), k) == Remove(Merged(current, overflow, k), timer)
  {
    hide Remove, Shift;
    ShiftRemove(current, timer, Boundary(k));
    ShiftRemove(overflow, timer, Boundary(k + 1));
    RemoveConcat(Shift(current, Boundary(k)), Shift(overflow, Boundary(k + 1)), timer);
  }

  lemma ListedAfterRemove(l: seq<Item>, timers: map<nat, Timer>, timer: nat)
    requires Listed(l, timers)
    ensures Listed(Remove(l, timer), timers)
  {
    RemoveMembers(l, timer);
  }

  lemma ReceiveRefines(d: Daemon, s: Service)
    requires Related(d, s) && s.queue != [] && Acceptable(s.queue[0], s)
    ensures d.queue != [] && Usable(d.queue[0], d.timers)
    ensures Related(ReceiveCommand(d), Obey(s))
  {
    hide Valid, WellFormed, Sorted, Distinct, Contains, Insert, Remove, Shift, Add, Of, Epoch, Boundary, Decide,
        Schedule;
    var q := s.queue[0];
    var m := d.queue[0];
    assert Matches(m, q);
    RemoveRelated(d, s, q.timer);
    var d0 := d.(current := Remove(d.current, q.timer), overflow := Remove(d.overflow, q.timer));
    var s0 := s.(active := Remove(s.active, q.timer));
    DequeueRelated(d0, s0);
    var d1, s1 := d0.(queue := d0.queue[1..]), s0.(queue := s0.queue[1..]);
    match q.command
    case Start => StartRefines(d1, s1, q);
    case Stop =>
    case ChangePeriod => ChangePeriodRefines(d1, s1, q);
    case Delete => DeleteRelated(d1, s1, q.timer);
    case Other =>
  }

  lemma DequeueRelated(d: Daemon, s: Service)
    requires Related(d, s) && s.queue != []
    ensures d.queue != [] && Matches(d.queue[0], s.queue[0])
    ensures Related(d.(queue := d.queue[1..]), s.(queue := s.queue[1..]))
  {
    hide Listed, Sorted, Distinct, Shift, Of, Epoch;
  }

  // A Start command taken from the queue, once the timer is out of both lists.
  lemma StartRefines(d: Daemon, s: Service, q: Request)
    requires Related(d, s) && !Contains(s.active, q.timer) && q.timer in s.timers
    requires q.command == Start && Timely(q.value, s.now, s.timers[q.timer].period)
    ensures var P := s.timers[q.timer].period;
            var next := Add(Of(q.value), P);
            var decision := Decide(next, Of(s.now), Of(q.value), P);
            var d2 := InsertTimerInActiveList(d, q.timer, next, decision);
            && (decision == Immediately <==> q.value + P <= s.now)
            && (decision != Immediately ==> Related(d2, Schedule(s, q.timer, q.value + P)))
            && (decision == Immediately ==>
                  && Related(CallBack(d2, q.timer), Fire(s, q.timer))
                  && Related(Send(CallBack(d2, q.timer), Message(Start, next, q.timer)),
                             Ask(Fire(s, q.timer), Request(Start, q.value + P, q.timer))))
  {
    hide Related, Valid, WellFormed, Contains, Insert, Add, Of, Epoch, Decide, Timely;
    RelatedFacts(d, s);
    var P := s.timers[q.timer].period;
    InsertTimerRefines(d, s, q.timer, q.value);
    AddOf(q.value, P);
    if q.value + P <= s.now {
      CallBackRelated(d, s, q.timer);
      SendRelated(CallBack(d, q.timer), Fire(s, q.timer), Message(Start, Of(q.value + P), q.timer),
                  Request(Start, q.value + P, q.timer));
    }
  }

  lemma ChangePeriodRefines(d: Daemon, s: Service, q: Request)
    requires Related(d, s) && !Contains(s.active, q.timer) && q.timer in s.timers
    requires q.command == ChangePeriod && 0 < q.value < WRAP
    ensures var timers := s.timers[q.timer := s.timers[q.timer].(period := q.value)];
            var d1, s1 := d.(timers := timers), s.(timers := timers);
            var next := Add(d.lastTime, q.value);
            var decision := Decide(next, d.lastTime, d.lastTime, q.value);
            && decision != Immediately
            && Related(InsertTimerInActiveList(d1, q.timer, next, decision), Schedule(s1, q.timer, s.now + q.value))
  {
    hide Related, Valid, WellFormed, Contains, Insert, Add, Of, Epoch, Decide, InsertTimerInActiveList, Schedule;
    RelatedFacts(d, s);
    var timers := s.timers[q.timer := s.timers[q.timer].(period := q.value)];
    TimersRelated(d, s, timers);
    InsertTimerRefines(d.(timers := timers), s.(timers := timers), q.timer, s.now);
    AddOf(s.now, q.value);
  }

  lemma TimersRelated(d: Daemon, s: Service, timers: map<nat, Timer>)
    requires Related(d, s) && s.timers.Keys <= timers.Keys
    ensures Related(d.(timers := timers), s.(timers := timers))
  {
    hide Sorted, Distinct, Shift, Of, Epoch;
  }

  lemma DeleteRelated(d: Daemon, s: Service, timer: nat)
    requires Related(d, s) && !Contains(s.active, timer)
    ensures Related(d.(timers := d.timers - {timer}), s.(timers := s.timers - {timer}))
  {
    var k := Epoch(s.now);
    forall x | x in d.current ensures x.owner != timer {
      var i :| 0 <= i < |d.current| && d.current[i] == x;
      assert s.active[i].owner == x.owner;
    }
    forall x | x in d.overflow ensures x.owner != timer {
      var i :| 0 <= i < |d.overflow| && d.overflow[i] == x;
      assert s.active[|d.current| + i].owner == x.owner;
    }
  }
}
