// Bounds on what the daemon does by itself: how long it blocks, which Starts it sends
// itself, and how much room in the command queue a switch of lists needs.
module TimerBounds {
  import opened Basics
  import opened Ticks
  import opened SortedList
  import opened TimerDaemon
  import opened IdealTimers
  import opened TimerRefinement
  import opened TimerRuns

  // At time t there is something to do: the tick count has wrapped since the last sample,
  // or a timer has expired.
  predicate Due(s: Service, t: nat) {
    Epoch(t) != Epoch(s.now) || (s.active != [] && s.active[0].value <= t)
  }

  // The time from now until something is due: until the first expiry, if that is in this
  // epoch, otherwise until the tick count wraps.
  function Wait(s: Service, now: nat): int {
    var wrap := Boundary(Epoch(s.now) + 1);
    (if s.active != [] && s.active[0].value < wrap then s.active[0].value else wrap) - now
  }

  lemma DueAfterWait(s: Service, now: nat, t: nat)
    requires s.now <= now <= t && Epoch(now) == Epoch(s.now)
    ensures Due(s, t) <==> Wait(s, now) <= t - now
    ensures Wait(s, now) <= WRAP - Of(now)
  {
    hide Of, Epoch, Boundary;
    EpochEnds(now, t);
  }

  lemma EpochEnds(now: nat, t: nat)
    requires now <= t
    ensures Epoch(t) == Epoch(now) <==> t < Boundary(Epoch(now) + 1)
    ensures Boundary(Epoch(now) + 1) - now == WRAP - Of(now)
  {
  }

  // The block time is the time until something is due, as a tick count; there is none if
  // something is due already or a command is waiting.
  lemma BlockTimeIsWait(d: Daemon, s: Service, now: nat)
    requires Related(d, s) && s.now <= now < s.now + WRAP
    ensures BlockTime(d, Of(now)) == if Due(s, now) || d.queue != [] then None else Some(Wait(s, now) % WRAP)
    ensures !Due(s, now) ==> Epoch(now) == Epoch(s.now) && 0 < Wait(s, now)
    ensures !Due(s, now) ==> (Wait(s, now) == WRAP <==> Of(now) == 0 && d.current == [])
  {
    hide *;
    if d.current == [] { WaitForWrap(d, s, now); } else { WaitForTimer(d, s, now); }
  }

  lemma WaitForWrap(d: Daemon, s: Service, now: nat)
    requires Related(d, s) && s.now <= now < s.now + WRAP && d.current == []
    ensures BlockTime(d, Of(now)) == if Due(s, now) || d.queue != [] then None else Some(Wait(s, now) % WRAP)
    ensures !Due(s, now) ==> Epoch(now) == Epoch(s.now) && 0 < Wait(s, now)
    ensures !Due(s, now) ==> (Wait(s, now) == WRAP <==> Of(now) == 0 && d.current == [])
  {
    hide Related, Contains, Sorted, Distinct, Insert, QueueMatches, Listed, Of, Epoch, SampleTimeNow, Boundary, Sub;
    SampleRefines(d, s, now);
    RelatedFacts(d, s);
    Parts(now);
    PartsUnique(0, Epoch(s.now));
    EmptyRelated(d, s);
    UntilZero(Of(now));
  }

  lemma UntilZero(v: Tick)
    ensures Sub(0, v) == (WRAP - v) % WRAP
  {
  }

  lemma WaitForTimer(d: Daemon, s: Service, now: nat)
    requires Related(d, s) && s.now <= now < s.now + WRAP && d.current != []
    ensures BlockTime(d, Of(now)) == if Due(s, now) || d.queue != [] then None else Some(Wait(s, now) % WRAP)
    ensures !Due(s, now) ==> Epoch(now) == Epoch(s.now) && 0 < Wait(s, now)
    ensures !Due(s, now) ==> (Wait(s, now) == WRAP <==> Of(now) == 0 && d.current == [])
  {
    hide Related, Contains, Sorted, Distinct, Insert, QueueMatches, Listed, Of, Epoch, SampleTimeNow, Boundary;
    SampleRefines(d, s, now);
    RelatedFacts(d, s);
    Parts(now);
    PartsUnique(0, Epoch(s.now));
    HeadRelated(d, s);
    PartsUnique(d.current[0].value, Epoch(s.now));
  }

  // The daemon blocks exactly if nothing is due and no command is waiting, and its block
  // time ends exactly when something is due.  The one exception: with nothing in the current
  // list at tick zero the wait is a whole wrap, which as a tick count is zero.  The daemon is
  // then woken by the next tick, with nothing to do.
  lemma BlocksUntilDue(d: Daemon, s: Service, now: nat, t: nat)
    requires Related(d, s) && s.now <= now < s.now + WRAP && now <= t
    ensures BlockTime(d, Of(now)) == None <==> Due(s, now) || d.queue != []
    ensures var b := BlockTime(d, Of(now));
            b.Some? ==>
              && (b.value == 0 <==> Of(now) == 0 && d.current == [])
              && (b.value != 0 ==> (Due(s, t) <==> now + b.value <= t))
  {
    hide Related, BlockTime, Due, Wait, Of, Epoch;
    BlockTimeIsWait(d, s, now);
    if !Due(s, now) {
      DueAfterWait(s, now, t);
      DueAfterWait(s, now, now);
    }
  }

  // A Start stamped later than the time it would be judged at.
  predicate FromTheFuture(r: Request, now: nat) { r.command == Start && now < r.value }

  // What catching up sends is stamped before the limit.
  lemma {:induction false} CatchUpSendsThePast(s: Service, limit: nat, r: Request)
    requires WellFormed(s) && r in CatchUp(s, limit).queue && r !in s.queue
    ensures r.command == Start && r.value < limit
    decreases Slack(s.active, limit)
  {
    hide Sorted, Distinct, Contains, Insert;
    if s.active != [] && s.active[0].value < limit {
      HeadIsGone(s.active);
      var head := s.active[0];
      var s1 := Fire(s.(active := s.active[1..]), head.owner);
      var timer := s.timers[head.owner];
      var reload := head.value + timer.period;
      SlackInsert(s1.active, Item(head.owner, reload), limit);
      if !timer.autoReload {
        CatchUpSendsThePast(s1, limit, r);
      } else if reload < limit {
        CatchUpSendsThePast(Schedule(s1, head.owner, reload), limit, r);
      } else if r != Request(Start, head.value, head.owner) {
        CatchUpSendsThePast(Ask(s1, Request(Start, head.value, head.owner)), limit, r);
      }
    }
  }

  // Whatever a step adds to the queue that is from the future was posted by somebody else.
  lemma StepSendsThePast(s: Service, e: Event, r: Request)
    requires WellFormed(s) && Admissible(s, e)
    requires r in IdealStep(s, e).queue && FromTheFuture(r, IdealStep(s, e).now)
    ensures (r in s.queue && FromTheFuture(r, s.now)) || e == Posted(r)
  {
    hide Sorted, Distinct, Contains, Insert, CatchUp, Of;
    var limit := Boundary(Epoch(s.now) + 1);
    if (e.Woke? || e.BeganReceiving?) && Epoch(e.now) != Epoch(s.now) && r !in s.queue {
      CatchUpSendsThePast(s, limit, r);
      BoundaryPassed(s.now, e.now);
    }
  }

  lemma BoundaryPassed(now: nat, t: nat)
    requires now <= t && Epoch(t) != Epoch(now)
    ensures Boundary(Epoch(now) + 1) <= t
  {
  }

  lemma {:induction false} RunSendsThePast(s: Service, es: seq<Event>, r: Request)
    requires WellFormed(s) && AdmissibleRun(s, es)
    requires r in IdealRun(s, es).queue && FromTheFuture(r, IdealRun(s, es).now)
    ensures (r in s.queue && FromTheFuture(r, s.now)) || Posted(r) in es
    decreases |es|
  {
    hide WellFormed, Admissible, IdealStep;
    if es != [] {
      RunSendsThePast(IdealStep(s, es[0]), es[1..], r);
      if Posted(r) !in es[1..] { StepSendsThePast(s, es[0], r); }
    }
  }

  // A Start that the daemon sent itself is judged rightly unless it is, in a way that shows,
  // more than a wrap old: that a command is not from the future need only be asked of the
  // commands that others post.
  lemma OwnStartsAreTimely(timers: map<nat, Timer>, es: seq<Event>, r: Request, period: Period)
    requires AdmissibleRun(IdealBoot(timers), es)
    requires r in IdealRun(IdealBoot(timers), es).queue && r.command == Start && Posted(r) !in es
    ensures var age := IdealRun(IdealBoot(timers), es).now - r.value;
            && age >= 0
            && (Timely(r.value, IdealRun(IdealBoot(timers), es).now, period) <==> age < WRAP || age % WRAP >= period)
  {
    hide AdmissibleRun, IdealRun;
    var s := IdealRun(IdealBoot(timers), es);
    if FromTheFuture(r, s.now) { RunSendsThePast(IdealBoot(timers), es, r); }
  }

  // configTIMER_QUEUE_LENGTH
  const QUEUE_LENGTH: nat := 10

  // xTimerGenericCommand with a queue that can be full; None is the configASSERT of the
  // caller, which in this build never returns.
  function SendWithin(d: Daemon, m: Message, length: nat): Option<Daemon> {
    if |d.queue| < length then Some(Send(d, m)) else None
  }

  // The loop of prvSwitchTimerLists with such a queue.
  function DrainWithin(d: Daemon, length: nat): Option<Daemon>
    requires Valid(d)
    decreases Slack(d.current, WRAP)
  {
    if d.current == [] then Some(d)
    else
      var head := d.current[0];
      assert head in d.current;
      var d1 := CallBack(d.(current := d.current[1..]), head.owner);
      var reload := Item(head.owner, Add(head.value, d.timers[head.owner].period));
      DrainStep(d.current, reload);
      InsertMembers(d1.current, reload);
      if !d.timers[head.owner].autoReload then
        DrainWithin(d1, length)
      else if reload.value > head.value then
        DrainWithin(d1.(current := Insert(d1.current, reload)), length)
      else
        var sent := SendWithin(d1, Message(Start, head.value, head.owner), length);
        if sent.None? then None else DrainWithin(sent.value, length)
  }

  // The auto-reload timers among the items of a list.
  function Reloading(l: seq<Item>, timers: map<nat, Timer>): nat
    requires Listed(l, timers)
  {
    if l == [] then 0
    else
      assert l[0] in l;
      (if timers[l[0].owner].autoReload then 1 else 0) + Reloading(l[1..], timers)
  }

  lemma {:induction false} ReloadingConcat(a: seq<Item>, b: seq<Item>, timers: map<nat, Timer>)
    requires Listed(a, timers) && Listed(b, timers)
    ensures Reloading(a + b, timers) == Reloading(a, timers) + Reloading(b, timers)
  {
    if a == [] {
      assert a + b == b;
    } else {
      assert a[0] in a;
      ReloadingConcat(a[1..], b, timers);
      assert (a + b)[1..] == a[1..] + b && (a + b)[0] == a[0];
    }
  }

  lemma ReloadingInsert(l: seq<Item>, x: Item, timers: map<nat, Timer>)
    requires Listed(l, timers) && 0 <= x.value < WRAP && x.owner in timers
    ensures Listed(Insert(l, x), timers)
    ensures Reloading(Insert(l, x), timers) == Reloading(l, timers) + if timers[x.owner].autoReload then 1 else 0
  {
    var k := InsertIndex(l, x.value);
    assert l == l[..k] + l[k..];
    assert Listed([x], timers);
    assert Listed(l[..k] + [x], timers);
    ReloadingConcat(l[..k], l[k..], timers);
    ReloadingConcat(l[..k], [x], timers);
    ReloadingConcat(l[..k] + [x], l[k..], timers);
  }

  // The switch gets through, with the result it has for an unbounded queue, exactly if there
  // is one free place for every auto-reload timer in the current list, however often each
  // runs; otherwise the firmware stops.
  lemma {:induction false} SwitchNeeds(d: Daemon, length: nat)
    requires Valid(d) && |d.queue| <= length
    ensures var room := length - |d.queue|;
            DrainWithin(d, length) == if Reloading(d.current, d.timers) <= room then Some(DrainCurrentList(d)) else None
    ensures |DrainCurrentList(d).queue| == |d.queue| + Reloading(d.current, d.timers)
    decreases Slack(d.current, WRAP)
  {
    hide Insert, Slack;
    if d.current != [] {
      var head := d.current[0];
      assert head in d.current;
      var d1 := CallBack(d.(current := d.current[1..]), head.owner);
      var reload := Item(head.owner, Add(head.value, d.timers[head.owner].period));
      DrainStep(d.current, reload);
      ReloadingInsert(d1.current, reload, d.timers);
      var m := Message(Start, head.value, head.owner);
      if !d.timers[head.owner].autoReload {
        SwitchNeeds(d1, length);
      } else if reload.value > head.value {
        SwitchNeeds(d1.(current := Insert(d1.current, reload)), length);
      } else if |d1.queue| < length {
        SwitchNeeds(Send(d1, m), length);
      } else {
        SwitchNeeds(Send(d1, m), length + 1);
      }
    }
  }

  lemma {:induction false} AllReloading(l: seq<Item>, timers: map<nat, Timer>)
    requires Listed(l, timers) && forall x :: x in l ==> timers[x.owner].autoReload
    ensures Reloading(l, timers) == |l|
  {
    if l != [] {
      assert l[0] in l;
      AllReloading(l[1..], timers);
    }
  }

  // The queue of this build takes ten messages: eleven auto-reload timers still listed for
  // the old epoch when the daemon finds that the tick count has wrapped stop the firmware.
  lemma ElevenAreTooMany(d: Daemon)
    requires Valid(d) && |d.queue| <= 10 && |d.current| >= 11
    requires forall x :: x in d.current ==> d.timers[x.owner].autoReload
    ensures DrainWithin(d, QUEUE_LENGTH) == None
  {
    AllReloading(d.current, d.timers);
    SwitchNeeds(d, QUEUE_LENGTH);
  }
}
