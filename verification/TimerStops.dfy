// What the commands mean for the callbacks that follow them: STOP and DELETE end them, unless
// a START is on its way already, and CHANGE_PERIOD makes them count from now.
module TimerStops {
  import opened Basics
  import opened Ticks
  import opened SortedList
  import opened TimerDaemon
  import opened IdealTimers
  import opened TimerRefinement
  import opened TimerRuns
  import opened TimerAccounting

  // ---- silence ----

  // The request makes the timer run at some time.
  predicate Wakes(r: Request, timer: nat) { r.timer == timer && (r.command == Start || r.command == ChangePeriod) }

  predicate NoneWakes(q: seq<Request>, timer: nat) { forall r :: r in q ==> !Wakes(r, timer) }

  // The timer is not listed, and nothing in the queue will list it.
  ghost predicate Silenced(s: Service, timer: nat) { !Contains(s.active, timer) && NoneWakes(s.queue, timer) }

  predicate Posts(e: Event, timer: nat) { e.Posted? && Wakes(e.request, timer) }

  lemma FiresOther(s: Service, owner: nat, timer: nat)
    requires owner != timer
    ensures Fired(Fire(s, owner).fired, timer) == Fired(s.fired, timer)
  {
  }

  // Without the timer in the list, its head belongs to another one.
  lemma HeadIsOther(l: seq<Item>, timer: nat)
    requires l != [] && !Contains(l, timer)
    ensures l[0].owner != timer && !Contains(l[1..], timer)
  {
    assert l == [l[0]] + l[1..];
    ContainsCons(l[0], l[1..], timer);
  }

  lemma AskKeepsNone(q: seq<Request>, r: Request, timer: nat)
    requires NoneWakes(q, timer) && !Wakes(r, timer)
    ensures NoneWakes(q + [r], timer)
  {
  }

  lemma {:induction false} CatchUpSilent(s: Service, limit: nat, timer: nat)
    requires WellFormed(s) && Silenced(s, timer)
    ensures Silenced(CatchUp(s, limit), timer) && Fired(CatchUp(s, limit).fired, timer) == Fired(s.fired, timer)
    decreases Slack(s.active, limit)
  {
    hide Sorted, Distinct, Contains, Insert, Fired, NoneWakes;
    if s.active != [] && s.active[0].value < limit {
      HeadIsGone(s.active);
      HeadIsOther(s.active, timer);
      var head := s.active[0];
      var s1 := Fire(s.(active := s.active[1..]), head.owner);
      FiresOther(s.(active := s.active[1..]), head.owner, timer);
      var period := s.timers[head.owner].period;
      var reload := head.value + period;
      SlackInsert(s1.active, Item(head.owner, reload), limit);
      if !s.timers[head.owner].autoReload {
        CatchUpSilent(s1, limit, timer);
      } else if reload < limit {
        InsertContains(s1.active, Item(head.owner, reload), timer);
        CatchUpSilent(Schedule(s1, head.owner, reload), limit, timer);
      } else {
        AskKeepsNone(s1.queue, Request(Start, head.value, head.owner), timer);
        CatchUpSilent(Ask(s1, Request(Start, head.value, head.owner)), limit, timer);
      }
    }
  }

  lemma ExpireSilent(s: Service, timer: nat)
    requires WellFormed(s) && s.active != [] && Silenced(s, timer)
    ensures Silenced(Expire(s), timer) && Fired(Expire(s).fired, timer) == Fired(s.fired, timer)
  {
    hide Sorted, Distinct, Contains, Insert, Fired, NoneWakes;
    HeadIsGone(s.active);
    HeadIsOther(s.active, timer);
    var head := s.active[0];
    var s1 := s.(active := s.active[1..]);
    FiresOther(s1, head.owner, timer);
    if s.timers[head.owner].autoReload {
      var next := head.value + s.timers[head.owner].period;
      if next <= s.now {
        AskKeepsNone(s1.queue, Request(Start, head.value, head.owner), timer);
        FiresOther(Ask(s1, Request(Start, head.value, head.owner)), head.owner, timer);
      } else {
        InsertContains(s1.active, Item(head.owner, next), timer);
        FiresOther(Schedule(s1, head.owner, next), head.owner, timer);
      }
    }
  }

  lemma ReadClockSilent(s: Service, now: nat, timer: nat)
    requires WellFormed(s) && Silenced(s, timer)
    ensures Silenced(ReadClock(s, now), timer) && Fired(ReadClock(s, now).fired, timer) == Fired(s.fired, timer)
  {
    hide Sorted, Distinct, Contains, Fired, NoneWakes, CatchUp;
    if Epoch(now) != Epoch(s.now) { CatchUpSilent(s, Boundary(Epoch(s.now) + 1), timer); }
  }

  lemma RestOfQueue(q: seq<Request>, timer: nat)
    requires q != [] && NoneWakes(q, timer)
    ensures NoneWakes(q[1..], timer) && !Wakes(q[0], timer)
  {
    assert q[0] in q;
  }

  lemma ObeySilent(s: Service, timer: nat)
    requires WellFormed(s) && s.queue != [] && Sensible(s.queue[0], s.timers) && Silenced(s, timer)
    ensures Silenced(Obey(s), timer) && Fired(Obey(s).fired, timer) == Fired(s.fired, timer)
  {
    hide Sorted, Distinct, Contains, Insert, Remove, Fired, NoneWakes;
    var q := s.queue[0];
    RestOfQueue(s.queue, timer);
    RemoveContains(s.active, q.timer, timer);
    RemoveContains(s.active, q.timer, q.timer);
    RemoveMembers(s.active, q.timer);
    RemoveKeepsOrder(s.active, q.timer);
    var s1 := s.(queue := s.queue[1..], active := Remove(s.active, q.timer));
    match q.command
    case Start =>
      var next := q.value + s.timers[q.timer].period;
      FiresOther(s1, q.timer, timer);
      AskKeepsNone(s1.queue, Request(Start, next, q.timer), timer);
      InsertContains(s1.active, Item(q.timer, next), timer);
    case ChangePeriod => InsertContains(s1.active, Item(q.timer, s.now + q.value), timer);
    case _ =>
  }

  lemma StepSilent(s: Service, e: Event, timer: nat)
    requires WellFormed(s) && Admissible(s, e) && Silenced(s, timer) && !Posts(e, timer)
    ensures Silenced(IdealStep(s, e), timer) && Fired(IdealStep(s, e).fired, timer) == Fired(s.fired, timer)
  {
    hide Sorted, Distinct, Contains, Fired, NoneWakes, WellFormed, ReadClock, Expire, Obey;
    match e
    case Posted(r) => AskKeepsNone(s.queue, r, timer);
    case Woke(now) =>
      ReadClockSilent(s, now, timer);
      var s1 := ReadClock(s, now);
      if Epoch(now) == Epoch(s.now) && s1.active != [] && s1.active[0].value <= now { ExpireSilent(s1, timer); }
    case BeganReceiving(now) => ReadClockSilent(s, now, timer);
    case Received => ObeySilent(s, timer);
  }

  lemma {:induction false} RunSilent(s: Service, es: seq<Event>, timer: nat)
    requires WellFormed(s) && AdmissibleRun(s, es) && Silenced(s, timer)
    requires forall i :: 0 <= i < |es| ==> !Posts(es[i], timer)
    ensures Silenced(IdealRun(s, es), timer) && Fired(IdealRun(s, es).fired, timer) == Fired(s.fired, timer)
    decreases |es|
  {
    hide WellFormed, Admissible, IdealStep, Silenced, Fired, Posts;
    if es != [] {
      StepSilent(s, es[0], timer);
      RunSilent(IdealStep(s, es[0]), es[1..], timer);
    }
  }

  // ---- STOP and DELETE ----

  lemma StopSilences(s: Service, timer: nat)
    requires WellFormed(s) && s.queue != [] && Sensible(s.queue[0], s.timers)
    requires s.queue[0].timer == timer && (s.queue[0].command == Stop || s.queue[0].command == Delete)
    requires NoneWakes(s.queue[1..], timer)
    ensures Silenced(Obey(s), timer) && Obey(s).fired == s.fired
  {
    hide Sorted, Distinct, Contains, Remove, NoneWakes;
    RemoveContains(s.active, timer, timer);
  }

  // Once the daemon has taken a STOP or a DELETE of a timer from its queue, with no START or
  // CHANGE_PERIOD of it behind that, the callback is not called again in any run in which
  // nobody posts one.
  lemma StoppedForGood(d: Daemon, s: Service, es: seq<Event>, timer: nat)
    requires Related(d, s) && WellFormed(s) && Admissible(s, Received)
    requires s.queue[0].timer == timer && (s.queue[0].command == Stop || s.queue[0].command == Delete)
    requires NoneWakes(s.queue[1..], timer)
    requires AdmissibleRun(IdealStep(s, Received), es) && forall i :: 0 <= i < |es| ==> !Posts(es[i], timer)
    ensures Valid(d) && CodeCan(d, Received) && CodeCanRun(CodeStep(d, Received), es)
    ensures Fired(CodeRun(CodeStep(d, Received), es).fired, timer) == Fired(d.fired, timer)
  {
    hide Related, Valid, CodeRun, IdealRun, CodeCanRun, AdmissibleRun, Fired, NoneWakes, Silenced, CodeStep, CodeCan;
    RelatedFacts(d, s);
    StepRefines(d, s, Received);
    StopSilences(s, timer);
    RunSilent(IdealStep(s, Received), es, timer);
    RunRefines(CodeStep(d, Received), IdealStep(s, Received), es);
  }

  // With a START of the timer right behind it a stop is undone: the timer runs or is listed.
  lemma StopIsUndone(s: Service, timer: nat)
    requires WellFormed(s) && |s.queue| >= 2 && Sensible(s.queue[0], s.timers)
    requires s.queue[0].timer == timer && s.queue[0].command == Stop
    requires s.queue[1].timer == timer && s.queue[1].command == Start && Sensible(s.queue[1], s.timers)
    ensures var r := Obey(Obey(s));
            Contains(r.active, timer) || Fired(r.fired, timer) == Fired(s.fired, timer) + 1
  {
    hide Sorted, Distinct, Contains, Remove, Insert;
    var s1 := Obey(s);
    RemoveContains(s1.active, timer, timer);
    var expiry := s.queue[1].value + s.timers[timer].period;
    InsertContains(Remove(s1.active, timer), Item(timer, expiry), timer);
  }

  // A run in which that happens.  A timer that reloads every five ticks is stopped, but the
  // daemon looks at the clock late: it runs the timer and, since the next expiry has passed as
  // well, sends a START that is behind the STOP.
  function StopRun(timer: nat): seq<Event> {
    [BeganReceiving(0), Posted(Request(Start, 0, timer)), Received, Posted(Request(Stop, 0, timer))] + LateTurn()
  }

  function LateTurn(): seq<Event> { [Woke(10), BeganReceiving(10), Received, Received] }

  lemma AnEvent(s: Service, e: Event, es: seq<Event>)
    requires WellFormed(s) && Admissible(s, e) && AdmissibleRun(IdealStep(s, e), es)
    ensures AdmissibleRun(s, [e] + es) && IdealRun(s, [e] + es) == IdealRun(IdealStep(s, e), es)
  {
    hide WellFormed, Admissible, IdealStep;
    assert ([e] + es)[1..] == es;
  }

  lemma NoEvents(s: Service)
    requires WellFormed(s)
    ensures AdmissibleRun(s, []) && IdealRun(s, []) == s
  {
  }

  // The four states of the first half, and those of the second.
  lemma StartedAndStopped(timers: map<nat, Timer>, timer: nat)
    requires timer != NULL && timer in timers && timers[timer] == Timer(5, true)
    ensures var s0 := IdealBoot(timers);
            var s2 := s0.(queue := [Request(Start, 0, timer)]);
            var s3 := s0.(active := [Item(timer, 5)]);
            && WellFormed(s0) && Admissible(s0, BeganReceiving(0)) && IdealStep(s0, BeganReceiving(0)) == s0
            && Admissible(s0, Posted(Request(Start, 0, timer))) && IdealStep(s0, Posted(Request(Start, 0, timer))) == s2
            && WellFormed(s2) && Admissible(s2, Received) && IdealStep(s2, Received) == s3
            && WellFormed(s3) && Admissible(s3, Posted(Request(Stop, 0, timer)))
            && IdealStep(s3, Posted(Request(Stop, 0, timer))) == s3.(queue := [Request(Stop, 0, timer)])
  {
  }

  lemma RunsOnceMore(timers: map<nat, Timer>, timer: nat)
    requires timer != NULL && timer in timers && timers[timer] == Timer(5, true)
    ensures var s4 := IdealBoot(timers).(active := [Item(timer, 5)], queue := [Request(Stop, 0, timer)]);
            var s5 := IdealBoot(timers).(queue := [Request(Stop, 0, timer), Request(Start, 5, timer)], now := 10,
                                         fired := [timer]);
            var s7 := s5.(queue := [Request(Start, 5, timer)]);
            && WellFormed(s4) && Admissible(s4, Woke(10)) && IdealStep(s4, Woke(10)) == s5
            && WellFormed(s5) && Admissible(s5, BeganReceiving(10)) && IdealStep(s5, BeganReceiving(10)) == s5
            && Admissible(s5, Received) && IdealStep(s5, Received) == s7
            && WellFormed(s7) && Admissible(s7, Received)
            && IdealStep(s7, Received) == s7.(queue := [Request(Start, 10, timer)], fired := [timer, timer])
  {
    hide CatchUp;
    assert Epoch(10) == 0 && Epoch(0) == 0;
    RemoveNobody([], timer);
  }

  lemma StopTooLate(timers: map<nat, Timer>, timer: nat)
    requires timer != NULL && timer in timers && timers[timer] == Timer(5, true)
    ensures AdmissibleRun(IdealBoot(timers), StopRun(timer)) && CodeCanRun(Boot(timers), StopRun(timer))
    ensures CodeRun(Boot(timers), StopRun(timer)).fired == [timer, timer]
  {
    hide Admissible, IdealStep, AdmissibleRun, IdealRun, CodeCanRun, CodeRun, WellFormed;
    ListOfEvents(timer);
    StartedAndStopped(timers, timer);
    RunsOnceMore(timers, timer);
    var s0 := IdealBoot(timers);
    var s2 := s0.(queue := [Request(Start, 0, timer)]);
    var s3 := s0.(active := [Item(timer, 5)]);
    var s4 := s3.(queue := [Request(Stop, 0, timer)]);
    var s5 := s0.(queue := [Request(Stop, 0, timer), Request(Start, 5, timer)], now := 10, fired := [timer]);
    var s7 := s5.(queue := [Request(Start, 5, timer)]);
    NoEvents(IdealStep(s7, Received));
    AnEvent(s7, Received, []);
    AnEvent(s5, Received, [Received]);
    AnEvent(s5, BeganReceiving(10), [Received, Received]);
    AnEvent(s4, Woke(10), [BeganReceiving(10), Received, Received]);
    AnEvent(s3, Posted(Request(Stop, 0, timer)), LateTurn());
    AnEvent(s2, Received, [Posted(Request(Stop, 0, timer))] + LateTurn());
    AnEvent(s0, Posted(Request(Start, 0, timer)), [Received] + ([Posted(Request(Stop, 0, timer))] + LateTurn()));
    AnEvent(s0, BeganReceiving(0),
            [Posted(Request(Start, 0, timer))] + ([Received] + ([Posted(Request(Stop, 0, timer))] + LateTurn())));
    BootRelated(timers);
    RunRefines(Boot(timers), s0, StopRun(timer));
  }

  lemma ListOfEvents(timer: nat)
    ensures StopRun(timer) ==
            [BeganReceiving(0)] + ([Posted(Request(Start, 0, timer))] +
            ([Received] + ([Posted(Request(Stop, 0, timer))] + LateTurn())))
    ensures LateTurn() == [Woke(10)] + [BeganReceiving(10), Received, Received]
    ensures [BeganReceiving(10)] + [Received, Received] == [BeganReceiving(10), Received, Received]
    ensures [Received] + [Received] == [Received, Received] && [Received] + [] == [Received]
  {
  }

  // ---- CHANGE_PERIOD ----

  lemma ChangeStarts(s: Service, timer: nat)
    requires WellFormed(s) && s.queue != [] && Sensible(s.queue[0], s.timers)
    requires s.queue[0].timer == timer && s.queue[0].command == ChangePeriod
    requires Pending(s.queue[1..], timer) == []
    ensures var P := s.queue[0].value;
            && Starting(Obey(s), timer, s.now, P, s.timers[timer].autoReload)
            && Item(timer, s.now + P) in Obey(s).active && Obey(s).fired == s.fired && Obey(s).now == s.now
  {
    hide Sorted, Distinct, Contains, Remove, Insert;
    RemoveContains(s.active, timer, timer);
    RemoveMembers(s.active, timer);
    RemoveKeepsOrder(s.active, timer);
    InsertMembers(Remove(s.active, timer), Item(timer, s.now + s.queue[0].value));
  }

  lemma NeverEarly(s: Service, timer: nat, C: nat, P: Period, again: bool, before: nat, n: nat)
    requires Accounted(s, timer, C, P, again, before, n, s.now + 1) && n > 0
    ensures C + P <= s.now
  {
    if n > 1 { MulOrder(1, n, P); }
  }

  // How often a timer that counts from C has run in the end, and how often once nothing is
  // left to do.
  ghost predicate RunsFrom(runs: int, C: nat, P: Period, again: bool, now: nat, drained: bool) {
    && runs >= 0 && (runs > 0 ==> C + P <= now)
    && (drained ==> C <= now && runs == if again then (now - C) / P else if C + P <= now then 1 else 0)
  }

  lemma CountsFrom(d: Daemon, s: Service, es: seq<Event>, timer: nat, C: nat, P: Period, again: bool)
    requires Related(d, s) && WellFormed(s) && AdmissibleRun(s, es) && Starting(s, timer, C, P, again)
    requires forall i :: 0 <= i < |es| && es[i].Posted? ==> es[i].request.timer != timer
    ensures Valid(d) && CodeCanRun(d, es)
    ensures var d1 := CodeRun(d, es);
            RunsFrom(Fired(d1.fired, timer) - Fired(d.fired, timer), C, P, again, IdealRun(s, es).now, Drained(d1))
  {
    hide Related, Valid, WellFormed, CodeRun, IdealRun, CodeCanRun, AdmissibleRun, Fired, EpochInvariant, Contains;
    hide Drained, Pending, Accounted, Starting;
    var n := CodeAccounting(d, s, es, timer, C, P, again);
    var s1 := IdealRun(s, es);
    if n > 0 { NeverEarly(s1, timer, C, P, again, Fired(d.fired, timer), n); }
    if Drained(CodeRun(d, es)) { DrainedMeansFloor(s1, timer, C, P, again, Fired(d.fired, timer), n); }
  }

  // Once the daemon has taken a CHANGE_PERIOD to P at time N from its queue, with no other
  // command of the timer behind it, the timer is listed for N + P; in no run is its callback
  // called before that; and with its work drained it has been called once for every period
  // since N, or, if it is a one-shot timer, once if its time has come.
  lemma PeriodCountsFromNow(d: Daemon, s: Service, es: seq<Event>, timer: nat)
    requires Related(d, s) && WellFormed(s) && Admissible(s, Received)
    requires s.queue[0].timer == timer && s.queue[0].command == ChangePeriod && timer in s.timers
    requires Pending(s.queue[1..], timer) == []
    requires AdmissibleRun(IdealStep(s, Received), es)
    requires forall i :: 0 <= i < |es| && es[i].Posted? ==> es[i].request.timer != timer
    ensures Valid(d) && CodeCan(d, Received) && CodeCanRun(CodeStep(d, Received), es)
    ensures var P := s.queue[0].value;
            var d1, s1 := CodeRun(CodeStep(d, Received), es), IdealRun(IdealStep(s, Received), es);
            && P > 0 && Item(timer, s.now + P) in IdealStep(s, Received).active
            && RunsFrom(Fired(d1.fired, timer) - Fired(d.fired, timer), s.now, P, s.timers[timer].autoReload, s1.now,
                        Drained(d1))
  {
    hide Related, Valid, WellFormed, CodeRun, IdealRun, CodeCanRun, AdmissibleRun, Fired, Starting, Pending, Drained;
    hide CodeStep, CodeCan, RunsFrom, Obey;
    RelatedFacts(d, s);
    StepRefines(d, s, Received);
    ChangeStarts(s, timer);
    RelatedFacts(CodeStep(d, Received), IdealStep(s, Received));
    CountsFrom(CodeStep(d, Received), IdealStep(s, Received), es, timer, s.now, s.queue[0].value,
               s.timers[timer].autoReload);
  }
}
