// How often callbacks run: for an auto-reload timer over whole runs, and inside the loop
// of prvSwitchTimerLists.
module TimerAccounting {
  import opened Basics
  import opened Ticks
  import opened SortedList
  import opened TimerDaemon
  import opened IdealTimers
  import opened TimerRefinement
  import opened TimerRuns

  function Fired(fired: seq<nat>, timer: nat): nat { multiset(fired)[timer] }

  // The requests for one timer that wait in the queue, in order.
  function Pending(q: seq<Request>, timer: nat): seq<Request> {
    if q == [] then []
    else (if q[0].timer == timer then [q[0]] else []) + Pending(q[1..], timer)
  }

  lemma {:induction false} PendingAppend(q: seq<Request>, r: Request, timer: nat)
    ensures Pending(q + [r], timer) == Pending(q, timer) + (if r.timer == timer then [r] else [])
  {
    if q == [] {
      assert q + [r] == [r];
    } else {
      PendingAppend(q[1..], r, timer);
      assert (q + [r])[1..] == q[1..] + [r];
    }
  }

  // A timer started at C with period P that has still to run: its n-th expiry, or its start
  // when n is 0, is the anchor.  Either the timer is listed for one period after the anchor,
  // or exactly one Start stamped with the anchor is on its way.
  ghost predicate Anchored(s: Service, timer: nat, P: Period, anchor: nat, horizon: nat) {
    || (&& Item(timer, anchor + P) in s.active
        && Pending(s.queue, timer) == []
        && anchor < horizon)
    || (&& !Contains(s.active, timer)
        && Pending(s.queue, timer) == [Request(Start, anchor, timer)])
  }

  // The timer has run n times since its count was before, the last time at C + n * P.  It
  // has still to run if it reloads or has not run yet; a one-shot timer that has run is gone.
  ghost predicate Accounted(s: Service, timer: nat, C: nat, P: Period, again: bool, before: nat, n: nat, horizon: nat) {
    && timer in s.timers && s.timers[timer] == Timer(P, again)
    && Fired(s.fired, timer) == before + n
    && (n > 0 ==> C + n * P < horizon)
    && (if again || n == 0 then Anchored(s, timer, P, C + n * P, horizon)
        else n == 1 && !Contains(s.active, timer) && Pending(s.queue, timer) == [])
  }

  lemma NextAnchor(C: nat, n: nat, P: Period)
    ensures C + n * P + P == C + (n + 1) * P
  {
  }

  // In a list without repetition an item of the timer is the only one.
  lemma TheItem(l: seq<Item>, x: Item)
    requires Distinct(l) && x in l
    ensures Contains(l, x.owner)
    ensures forall y :: y in l && y.owner == x.owner ==> y == x
  {
  }

  // The head of the list runs: accounts stay right, whatever the head does next.
  lemma HeadRuns(s: Service, timer: nat, C: nat, P: Period, again: bool, before: nat, n: nat, horizon: nat)
    requires WellFormed(s) && s.active != [] && Accounted(s, timer, C, P, again, before, n, horizon)
    ensures var head := s.active[0];
            var s1 := Fire(s.(active := s.active[1..]), head.owner);
            && (head.owner != timer ==> Accounted(s1, timer, C, P, again, before, n, horizon))
            && (head.owner == timer ==>
                  && (again || n == 0)
                  && head.value == C + (n + 1) * P && (n == 0 ==> head.value == C + P)
                  && Fired(s1.fired, timer) == before + n + 1
                  && !Contains(s1.active, timer)
                  && Pending(s1.queue, timer) == [])
  {
    hide Sorted, Pending;
    HeadIsGone(s.active);
    NextAnchor(C, n, P);
    var head := s.active[0];
    if Contains(s.active, timer) {
      TheItem(s.active, Item(timer, C + n * P + P));
    }
    ContainsCons(head, s.active[1..], timer);
    assert s.active == [head] + s.active[1..];
  }

  // The timer that just ran is listed again for one period after its new anchor.
  lemma RunsAgainListed(s: Service, timer: nat, C: nat, P: Period, again: bool, before: nat, n: nat, horizon: nat)
    requires again || n == 0
    requires WellFormed(s) && timer in s.timers && s.timers[timer] == Timer(P, again)
    requires Fired(s.fired, timer) == before + n && !Contains(s.active, timer) && Pending(s.queue, timer) == []
    requires C + n * P < horizon
    ensures Accounted(Schedule(s, timer, C + n * P + P), timer, C, P, again, before, n, horizon)
  {
    hide Contains, Pending, Fired, Insert;
    InsertMembers(s.active, Item(timer, C + n * P + P));
  }

  lemma RunsAgainAsked(s: Service, timer: nat, C: nat, P: Period, again: bool, before: nat, n: nat, horizon: nat)
    requires again || n == 0
    requires timer in s.timers && s.timers[timer] == Timer(P, again)
    requires Fired(s.fired, timer) == before + n && !Contains(s.active, timer) && Pending(s.queue, timer) == []
    requires n > 0 ==> C + n * P < horizon
    ensures Accounted(Ask(s, Request(Start, C + n * P, timer)), timer, C, P, again, before, n, horizon)
  {
    PendingAppend(s.queue, Request(Start, C + n * P, timer), timer);
  }

  // A one-shot timer has run.
  lemma RunsNoMore(s: Service, timer: nat, C: nat, P: Period, before: nat, horizon: nat)
    requires timer in s.timers && s.timers[timer] == Timer(P, false) && C + P < horizon
    requires Fired(s.fired, timer) == before + 1 && !Contains(s.active, timer) && Pending(s.queue, timer) == []
    ensures Accounted(s, timer, C, P, false, before, 1, horizon)
  {
  }

  // Another timer is listed or asked for.
  lemma OthersDoNotMatter(s: Service, timer: nat, C: nat, P: Period, again: bool, before: nat, n: nat, horizon: nat,
                          other: nat, when: nat)
    requires WellFormed(s) && Accounted(s, timer, C, P, again, before, n, horizon) && other != timer
    ensures other in s.timers && !Contains(s.active, other) ==>
              Accounted(Schedule(s, other, when), timer, C, P, again, before, n, horizon)
    ensures Accounted(Ask(s, Request(Start, when, other)), timer, C, P, again, before, n, horizon)
    ensures Accounted(Fire(s, other), timer, C, P, again, before, n, horizon)
  {
    hide Contains, Pending, Insert, Sorted, Distinct;
    InsertMembers(s.active, Item(other, when));
    InsertContains(s.active, Item(other, when), timer);
    PendingAppend(s.queue, Request(Start, when, other), timer);
  }

  lemma LaterHorizon(s: Service, timer: nat, C: nat, P: Period, again: bool, before: nat, n: nat, h1: nat, h2: nat)
    requires Accounted(s, timer, C, P, again, before, n, h1) && h1 <= h2
    ensures Accounted(s, timer, C, P, again, before, n, h2)
  {
  }

  lemma ExpireAccounted(s: Service, timer: nat, C: nat, P: Period, again: bool, before: nat, n: nat) returns (n': nat)
    requires WellFormed(s) && s.active != [] && s.active[0].value <= s.now
    requires Accounted(s, timer, C, P, again, before, n, s.now + 1)
    ensures Accounted(Expire(s), timer, C, P, again, before, n', s.now + 1)
  {
    hide Accounted, Sorted, Distinct, Contains, Insert, Pending, Schedule;
    AccountedTimer(s, timer, C, P, again, before, n, s.now + 1);
    HeadIsGone(s.active);
    HeadRuns(s, timer, C, P, again, before, n, s.now + 1);
    var head := s.active[0];
    var t := s.timers[head.owner];
    var s1 := Fire(s.(active := s.active[1..]), head.owner);
    FireLater(s.(active := s.active[1..]), head.owner, head.value + t.period, head.value);
    if head.owner == timer {
      n' := n + 1;
      if !again {
        RunsNoMore(s1, timer, C, P, before, s.now + 1);
      } else if head.value + P <= s.now {
        RunsAgainAsked(s1, timer, C, P, again, before, n', s.now + 1);
      } else {
        RunsAgainListed(s1, timer, C, P, again, before, n', s.now + 1);
      }
    } else {
      n' := n;
      OthersDoNotMatter(s1, timer, C, P, again, before, n, s.now + 1, head.owner, head.value + t.period);
      OthersDoNotMatter(s1, timer, C, P, again, before, n, s.now + 1, head.owner, head.value);
    }
  }

  // The order of the callback and of what is done about the reload does not matter.
  lemma FireLater(s: Service, owner: nat, expiry: nat, stamp: nat)
    requires WellFormed(s) && owner in s.timers && !Contains(s.active, owner)
    ensures Fire(Schedule(s, owner, expiry), owner) == Schedule(Fire(s, owner), owner, expiry)
    ensures Fire(Ask(s, Request(Start, stamp, owner)), owner) == Ask(Fire(s, owner), Request(Start, stamp, owner))
  {
    hide Insert, Contains, Sorted, Distinct;
  }

  lemma AccountedTimer(s: Service, timer: nat, C: nat, P: Period, again: bool, before: nat, n: nat, horizon: nat)
    requires Accounted(s, timer, C, P, again, before, n, horizon)
    ensures timer in s.timers && s.timers[timer] == Timer(P, again)
  {
  }

  lemma {:induction false} CatchUpAccounted(s: Service, limit: nat, timer: nat, C: nat, P: Period, again: bool,
      before: nat, n: nat)
    returns (n': nat)
    requires WellFormed(s) && Accounted(s, timer, C, P, again, before, n, limit)
    ensures Accounted(CatchUp(s, limit), timer, C, P, again, before, n', limit)
    decreases Slack(s.active, limit)
  {
    hide Accounted, Sorted, Distinct, Contains, Insert, Pending;
    n' := n;
    if s.active != [] && s.active[0].value < limit {
      AccountedTimer(s, timer, C, P, again, before, n, limit);
      HeadIsGone(s.active);
      HeadRuns(s, timer, C, P, again, before, n, limit);
      var head := s.active[0];
      var t := s.timers[head.owner];
      var s1 := Fire(s.(active := s.active[1..]), head.owner);
      var reload := head.value + t.period;
      var n1 := if head.owner == timer then n + 1 else n;
      SlackInsert(s1.active, Item(head.owner, reload), limit);
      if !t.autoReload {
        if head.owner == timer { RunsNoMore(s1, timer, C, P, before, limit); }
        n' := CatchUpAccounted(s1, limit, timer, C, P, again, before, n1);
      } else if reload < limit {
        if head.owner == timer {
          RunsAgainListed(s1, timer, C, P, again, before, n1, limit);
        } else {
          OthersDoNotMatter(s1, timer, C, P, again, before, n, limit, head.owner, reload);
        }
        n' := CatchUpAccounted(Schedule(s1, head.owner, reload), limit, timer, C, P, again, before, n1);
      } else {
        if head.owner == timer {
          RunsAgainAsked(s1, timer, C, P, again, before, n1, limit);
        } else {
          OthersDoNotMatter(s1, timer, C, P, again, before, n, limit, head.owner, head.value);
        }
        n' := CatchUpAccounted(Ask(s1, Request(Start, head.value, head.owner)), limit, timer, C, P, again, before, n1);
      }
    }
  }

  lemma ReadClockAccounted(s: Service, now: nat, timer: nat, C: nat, P: Period, again: bool, before: nat,
      n: nat)
    returns (n': nat)
    requires WellFormed(s) && s.now <= now && Accounted(s, timer, C, P, again, before, n, s.now + 1)
    ensures Accounted(ReadClock(s, now), timer, C, P, again, before, n', now + 1)
  {
    hide WellFormed, Pending, Contains, CatchUp;
    if Epoch(now) == Epoch(s.now) {
      n' := n;
    } else {
      var limit := Boundary(Epoch(s.now) + 1);
      LaterHorizon(s, timer, C, P, again, before, n, s.now + 1, limit);
      n' := CatchUpAccounted(s, limit, timer, C, P, again, before, n);
      LaterHorizon(CatchUp(s, limit), timer, C, P, again, before, n', limit, now + 1);
    }
  }

  lemma ObeyAccounted(s: Service, timer: nat, C: nat, P: Period, again: bool, before: nat, n: nat) returns (n': nat)
    requires WellFormed(s) && s.queue != [] && Acceptable(s.queue[0], s)
    requires Accounted(s, timer, C, P, again, before, n, s.now + 1)
    ensures Accounted(Obey(s), timer, C, P, again, before, n', s.now + 1)
  {
    hide Sorted, Distinct, Contains, Insert, Remove, Schedule, Fired;
    var q := s.queue[0];
    var rest := s.(queue := s.queue[1..], active := Remove(s.active, q.timer));
    RemoveMembers(s.active, q.timer);
    RemoveKeepsOrder(s.active, q.timer);
    RemoveContains(s.active, q.timer, timer);
    RemoveContains(s.active, q.timer, q.timer);
    assert Pending(s.queue, timer) == (if q.timer == timer then [q] else []) + Pending(rest.queue, timer);
    if q.timer == timer {
      n' := OwnStart(s, rest, timer, C, P, again, before, n);
    } else {
      n' := n;
      assert Accounted(rest, timer, C, P, again, before, n, s.now + 1);
      OtherObeyed(rest, q, timer, C, P, again, before, n);
    }
  }

  // The pending Start of the timer itself is taken from the queue.
  lemma OwnStart(s: Service, rest: Service, timer: nat, C: nat, P: Period, again: bool, before: nat,
      n: nat)
    returns (n': nat)
    requires WellFormed(s) && s.queue != [] && Acceptable(s.queue[0], s) && s.queue[0].timer == timer
    requires WellFormed(rest) && rest == s.(queue := s.queue[1..], active := Remove(s.active, timer))
    requires !Contains(rest.active, timer)
    requires Pending(s.queue, timer) == [s.queue[0]] + Pending(rest.queue, timer)
    requires Accounted(s, timer, C, P, again, before, n, s.now + 1)
    ensures Accounted(Obey(s), timer, C, P, again, before, n', s.now + 1)
  {
    hide Sorted, Distinct, Contains, Insert, Remove, Pending, Schedule, Fired;
    var q := s.queue[0];
    assert [q] + Pending(rest.queue, timer) == [Request(Start, C + n * P, timer)];
    assert q == ([q] + Pending(rest.queue, timer))[0];
    assert Pending(rest.queue, timer) == [];
    NextAnchor(C, n, P);
    if q.value + P <= s.now {
      n' := n + 1;
      FiredOnce(rest, timer);
      if again {
        RunsAgainAsked(Fire(rest, timer), timer, C, P, again, before, n', s.now + 1);
      } else {
        RunsNoMore(Fire(rest, timer), timer, C, P, before, s.now + 1);
      }
    } else {
      n' := n;
      RunsAgainListed(rest, timer, C, P, again, before, n, s.now + 1);
    }
  }

  lemma FiredOnce(s: Service, timer: nat)
    ensures Fired(Fire(s, timer).fired, timer) == Fired(s.fired, timer) + 1
  {
  }

  // A command for another timer has been taken from the queue and is obeyed.
  lemma OtherObeyed(rest: Service, q: Request, timer: nat, C: nat, P: Period, again: bool, before: nat, n: nat)
    requires WellFormed(rest) && Sensible(q, rest.timers) && q.timer != timer && !Contains(rest.active, q.timer)
    requires Accounted(rest, timer, C, P, again, before, n, rest.now + 1)
    ensures q.timer in rest.timers ==>
              var next := q.value + rest.timers[q.timer].period;
              && Accounted(Schedule(rest, q.timer, next), timer, C, P, again, before, n, rest.now + 1)
              && Accounted(Fire(rest, q.timer), timer, C, P, again, before, n, rest.now + 1)
              && Accounted(Ask(Fire(rest, q.timer), Request(Start, next, q.timer)), timer, C, P, again, before, n,
                  rest.now + 1)
    ensures q.command == ChangePeriod ==>
              var s2 := rest.(timers := rest.timers[q.timer := rest.timers[q.timer].(period := q.value)]);
              Accounted(Schedule(s2, q.timer, rest.now + q.value), timer, C, P, again, before, n, rest.now + 1)
    ensures Accounted(rest.(timers := rest.timers - {q.timer}), timer, C, P, again, before, n, rest.now + 1)
  {
    hide Sorted, Distinct, Contains, Insert, Pending, Schedule, Fired;
    var h := rest.now + 1;
    if q.timer in rest.timers {
      var next := q.value + rest.timers[q.timer].period;
      OthersDoNotMatter(rest, timer, C, P, again, before, n, h, q.timer, next);
      OthersDoNotMatter(Fire(rest, q.timer), timer, C, P, again, before, n, h, q.timer, next);
    }
    if q.command == ChangePeriod {
      var s2 := rest.(timers := rest.timers[q.timer := rest.timers[q.timer].(period := q.value)]);
      OthersDoNotMatter(s2, timer, C, P, again, before, n, h, q.timer, rest.now + q.value);
    }
  }

  lemma StepAccounted(s: Service, e: Event, timer: nat, C: nat, P: Period, again: bool, before: nat,
      n: nat)
    returns (n': nat)
    requires WellFormed(s) && Admissible(s, e) && (e.Posted? ==> e.request.timer != timer)
    requires Accounted(s, timer, C, P, again, before, n, s.now + 1)
    ensures var s1 := IdealStep(s, e); Accounted(s1, timer, C, P, again, before, n', s1.now + 1)
  {
    hide WellFormed, Accounted, ReadClock, Expire, Obey, Acceptable;
    NowAfter(s, e);
    n' := n;
    match e
    case Posted(r) => AskOther(s, r, timer, C, P, again, before, n);
    case Woke(now) =>
      n' := ReadClockAccounted(s, now, timer, C, P, again, before, n);
      var s1 := ReadClock(s, now);
      if Epoch(now) == Epoch(s.now) && s1.active != [] && s1.active[0].value <= now {
        n' := ExpireAccounted(s1, timer, C, P, again, before, n');
      }
    case BeganReceiving(now) => n' := ReadClockAccounted(s, now, timer, C, P, again, before, n);
    case Received => n' := ObeyAccounted(s, timer, C, P, again, before, n);
  }

  lemma AskOther(s: Service, r: Request, timer: nat, C: nat, P: Period, again: bool, before: nat, n: nat)
    requires r.timer != timer && Accounted(s, timer, C, P, again, before, n, s.now + 1)
    ensures Accounted(Ask(s, r), timer, C, P, again, before, n, s.now + 1)
  {
    PendingAppend(s.queue, r, timer);
  }

  lemma NowAfter(s: Service, e: Event)
    requires WellFormed(s) && Admissible(s, e)
    ensures IdealStep(s, e).now == match e case Woke(now) => now case BeganReceiving(now) => now case _ => s.now
    ensures e.Woke? ==> ReadClock(s, e.now).now == e.now
  {
  }

  lemma {:induction false} RunAccounted(s: Service, es: seq<Event>, timer: nat, C: nat, P: Period, again: bool,
      before: nat, n: nat)
    returns (n': nat)
    requires WellFormed(s) && AdmissibleRun(s, es)
    requires forall i :: 0 <= i < |es| && es[i].Posted? ==> es[i].request.timer != timer
    requires Accounted(s, timer, C, P, again, before, n, s.now + 1)
    ensures var s1 := IdealRun(s, es); Accounted(s1, timer, C, P, again, before, n', s1.now + 1)
    decreases |es|
  {
    hide WellFormed, Accounted, IdealStep, Admissible;
    n' := n;
    if es != [] {
      var n1 := StepAccounted(s, es[0], timer, C, P, again, before, n);
      n' := RunAccounted(IdealStep(s, es[0]), es[1..], timer, C, P, again, before, n1);
    }
  }

  lemma {:induction false} MulOrder(a: int, b: int, p: int)
    requires a < b && p > 0
    ensures a * p + p <= b * p
    decreases b - a
  {
    var c := b - 1;
    assert b * p == c * p + p;
    if a < c { MulOrder(a, c, p); }
  }

  lemma QuotientUnique(elapsed: int, n: int, P: Period)
    requires n * P <= elapsed < n * P + P
    ensures elapsed / P == n
  {
    var q := elapsed / P;
    assert q * P <= elapsed < q * P + P;
    if q < n { MulOrder(q, n, P); }
    if n < q { MulOrder(n, q, P); }
  }

  // Accounting on the ideal service: nothing due is left, so an auto-reload timer has run
  // once for every whole period since the start, and a one-shot timer once if its time
  // has come.
  lemma DrainedMeansFloor(s: Service, timer: nat, C: nat, P: Period, again: bool, before: nat, n: nat)
    requires WellFormed(s) && Accounted(s, timer, C, P, again, before, n, s.now + 1)
    requires Pending(s.queue, timer) == [] && (s.active == [] || s.now < s.active[0].value)
    ensures C <= s.now
    ensures again ==> n == (s.now - C) / P && Item(timer, C + ((s.now - C) / P + 1) * P) in s.active
    ensures !again ==> n == (if C + P <= s.now then 1 else 0)
    ensures !again ==> (Contains(s.active, timer) <==> s.now < C + P)
    ensures !again && s.now < C + P ==> Item(timer, C + P) in s.active
  {
    NextAnchor(C, n, P);
    assert C <= C + n * P;
    if again || n == 0 {
      var x := Item(timer, C + n * P + P);
      var i :| 0 <= i < |s.active| && s.active[i] == x;
      assert s.active[0].value <= s.active[i].value;
      if again { QuotientUnique(s.now - C, n, P); }
    }
  }

  // The daemon has drained its work: no command waits and nothing listed is due.
  predicate Drained(d: Daemon) {
    d.queue == [] && (d.current == [] || d.lastTime < d.current[0].value)
  }

  // A timer of period P counts from C: it is listed for C + P, or it is not listed and has
  // one Start stamped C on its way.
  ghost predicate Starting(s: Service, timer: nat, C: nat, P: Period, again: bool) {
    timer in s.timers && s.timers[timer] == Timer(P, again) && Anchored(s, timer, P, C, s.now + 1)
  }

  // Any run of the code from there in which nobody posts another command for the timer,
  // with the times it has run.
  lemma CodeAccounting(d: Daemon, s: Service, es: seq<Event>, timer: nat, C: nat, P: Period, again: bool)
    returns (n: nat)
    requires Related(d, s) && WellFormed(s) && AdmissibleRun(s, es) && Starting(s, timer, C, P, again)
    requires forall i :: 0 <= i < |es| && es[i].Posted? ==> es[i].request.timer != timer
    ensures Valid(d) && CodeCanRun(d, es)
    ensures var d1, s1 := CodeRun(d, es), IdealRun(s, es);
            && WellFormed(s1)
            && Fired(d1.fired, timer) == Fired(d.fired, timer) + n
            && EpochInvariant(d1, s1.active, s1.now)
            && Accounted(s1, timer, C, P, again, Fired(d.fired, timer), n, s1.now + 1)
            && (Drained(d1) ==> Pending(s1.queue, timer) == [] && (s1.active == [] || s1.now < s1.active[0].value))
  {
    hide Related, Valid, WellFormed, CodeRun, IdealRun, CodeCanRun, AdmissibleRun, Fired, EpochInvariant, Contains;
    hide Drained, Pending, Accounted, Starting;
    RelatedFacts(d, s);
    RunRefines(d, s, es);
    var before := Fired(s.fired, timer);
    StartAccounted(s, timer, C, P, again);
    n := RunAccounted(s, es, timer, C, P, again, before, 0);
    var d1, s1 := CodeRun(d, es), IdealRun(s, es);
    RelatedMeansEpochInvariant(d1, s1);
    RelatedFacts(d1, s1);
    AccountedCount(s1, timer, C, P, again, before, n, s1.now + 1);
    if Drained(d1) {
      DrainedRelated(d1, s1, timer);
    }
  }

  lemma AccountedCount(s: Service, timer: nat, C: nat, P: Period, again: bool, before: nat, n: nat, horizon: nat)
    requires Accounted(s, timer, C, P, again, before, n, horizon)
    ensures Fired(s.fired, timer) == before + n
  {
  }

  // Auto-reload accounting of the code: when the daemon has drained its work at time N,
  // the callback has run exactly (N - C) / P times, and the timer is listed for the first
  // multiple of P after N - C.
  lemma AutoReloadAccounting(d: Daemon, s: Service, es: seq<Event>, timer: nat, C: nat, P: Period)
    requires Related(d, s) && WellFormed(s) && AdmissibleRun(s, es) && Starting(s, timer, C, P, true)
    requires forall i :: 0 <= i < |es| && es[i].Posted? ==> es[i].request.timer != timer
    ensures Valid(d) && CodeCanRun(d, es)
    ensures var d1 := CodeRun(d, es);
            var N := IdealRun(s, es).now;
            Drained(d1) ==>
              && C <= N
              && Fired(d1.fired, timer) == Fired(d.fired, timer) + (N - C) / P
              && EpochInvariant(d1, IdealRun(s, es).active, N)
              && Item(timer, C + ((N - C) / P + 1) * P) in IdealRun(s, es).active
  {
    hide Related, Valid, WellFormed, CodeRun, IdealRun, CodeCanRun, AdmissibleRun, Fired, EpochInvariant, Contains;
    hide Drained, Pending, Accounted, Starting;
    var n := CodeAccounting(d, s, es, timer, C, P, true);
    if Drained(CodeRun(d, es)) {
      DrainedMeansFloor(IdealRun(s, es), timer, C, P, true, Fired(d.fired, timer), n);
    }
  }

  // One-shot accounting of the code: the callback has run at most once at any time, and
  // when the daemon has drained its work at time N, exactly once if N has reached C + P,
  // and otherwise not and the timer is listed for C + P.
  lemma OneShotAccounting(d: Daemon, s: Service, es: seq<Event>, timer: nat, C: nat, P: Period)
    requires Related(d, s) && WellFormed(s) && AdmissibleRun(s, es) && Starting(s, timer, C, P, false)
    requires forall i :: 0 <= i < |es| && es[i].Posted? ==> es[i].request.timer != timer
    ensures Valid(d) && CodeCanRun(d, es)
    ensures Fired(CodeRun(d, es).fired, timer) <= Fired(d.fired, timer) + 1
    ensures Fired(CodeRun(d, es).fired, timer) > Fired(d.fired, timer) ==> C + P <= IdealRun(s, es).now
    ensures var d1, s1 := CodeRun(d, es), IdealRun(s, es);
            Drained(d1) ==>
              && (Fired(d1.fired, timer) == Fired(d.fired, timer) + if C + P <= s1.now then 1 else 0)
              && (Contains(s1.active, timer) <==> s1.now < C + P)
              && (s1.now < C + P ==> Item(timer, C + P) in s1.active)
  {
    hide Related, Valid, WellFormed, CodeRun, IdealRun, CodeCanRun, AdmissibleRun, Fired, EpochInvariant, Contains;
    hide Drained, Pending, Accounted, Starting;
    var n := CodeAccounting(d, s, es, timer, C, P, false);
    OnceAtMost(IdealRun(s, es), timer, C, P, Fired(d.fired, timer), n);
    if Drained(CodeRun(d, es)) {
      DrainedMeansFloor(IdealRun(s, es), timer, C, P, false, Fired(d.fired, timer), n);
    }
  }

  lemma OnceAtMost(s: Service, timer: nat, C: nat, P: Period, before: nat, n: nat)
    requires Accounted(s, timer, C, P, false, before, n, s.now + 1)
    ensures n <= 1 && (n == 1 ==> C + P <= s.now)
  {
  }

  lemma StartAccounted(s: Service, timer: nat, C: nat, P: Period, again: bool)
    requires Starting(s, timer, C, P, again)
    ensures Accounted(s, timer, C, P, again, Fired(s.fired, timer), 0, s.now + 1)
  {
  }

  lemma DrainedRelated(d: Daemon, s: Service, timer: nat)
    requires Related(d, s) && Drained(d)
    ensures s.queue == [] && Pending(s.queue, timer) == [] && (s.active == [] || s.now < s.active[0].value)
  {
    if d.current == [] {
      EmptyRelated(d, s);
    } else {
      HeadRelated(d, s);
    }
  }

  function Commands(q: seq<Message>, timer: nat): seq<Message> {
    if q == [] then []
    else (if q[0].timer == timer then [q[0]] else []) + Commands(q[1..], timer)
  }

  lemma {:induction false} CommandsAppend(q: seq<Message>, m: Message, timer: nat)
    ensures Commands(q + [m], timer) == Commands(q, timer) + (if m.timer == timer then [m] else [])
  {
    if q == [] {
      assert q + [m] == [m];
    } else {
      CommandsAppend(q[1..], m, timer);
      assert (q + [m])[1..] == q[1..] + [m];
    }
  }

  // How many multiples of the period, counted from an expiry at tick e, fall before the
  // tick count wraps, and the last of them.
  function TurnsLeft(e: Tick, P: Period): nat { (WRAP - 1 - e) / P + 1 }

  function LastTurn(e: Tick, P: Period): int { e + (TurnsLeft(e, P) - 1) * P }

  lemma TurnsAre(e: Tick, P: Period)
    ensures TurnsLeft(e, P) == (WRAP - 1 - e) / P + 1
  {
  }

  lemma QuotientIs(x: nat, P: Period)
    ensures x / P * P <= x < x / P * P + P
  {
  }

  lemma LastTurnIs(e: Tick, P: Period, turns: nat)
    requires turns == TurnsLeft(e, P)
    ensures LastTurn(e, P) == e + (turns - 1) * P
  {
    hide TurnsLeft;
  }

  lemma TurnByTurn(e: Tick, P: Period)
    ensures e + P < WRAP ==> TurnsLeft(e, P) == TurnsLeft(e + P, P) + 1 && LastTurn(e, P) == LastTurn(e + P, P)
    ensures e + P >= WRAP ==> TurnsLeft(e, P) == 1 && LastTurn(e, P) == e
    ensures 0 <= LastTurn(e, P) < WRAP <= LastTurn(e, P) + P
  {
    hide TurnsLeft, LastTurn;
    var x := WRAP - 1 - e;
    var q := x / P;
    QuotientIs(x, P);
    TurnsAre(e, P);
    LastTurnIs(e, P, q + 1);
    if e + P < WRAP {
      assert (q - 1) * P == q * P - P;
      QuotientUnique(x - P, q - 1, P);
      TurnsAre(e + P, P);
      LastTurnIs(e + P, P, q);
    } else if q > 0 {
      MulOrder(0, q, P);
    }
  }

  // What the loop of prvSwitchTimerLists has added for one timer when it is done.
  ghost predicate Drains(d: Daemon, r: Daemon, timer: nat, turns: nat, sent: seq<Message>) {
    && Fired(r.fired, timer) == Fired(d.fired, timer) + turns
    && Commands(r.queue, timer) == Commands(d.queue, timer) + sent
  }

  // A timer that is not in the current list is left alone; a one-shot timer in it runs
  // once; an auto-reload timer listed at tick e with period P runs TurnsLeft(e, P) times
  // and one Start, stamped with its last turn, is sent for it.
  ghost predicate DrainsAsItShould(d: Daemon, timer: nat)
    requires Valid(d)
  {
    var r := DrainCurrentList(d);
    && (!Contains(d.current, timer) ==> Drains(d, r, timer, 0, []))
    && (forall e: Tick :: Item(timer, e) in d.current ==>
          var P := d.timers[timer].period;
          if d.timers[timer].autoReload
          then Drains(d, r, timer, TurnsLeft(e, P), [Message(Start, Stamp(e, P), timer)])
          else Drains(d, r, timer, 1, []))
  }

  function Stamp(e: Tick, P: Period): Tick {
    TurnByTurn(e, P);
    LastTurn(e, P)
  }

  lemma CallBackDrains(d: Daemon, owner: nat, timer: nat)
    ensures Drains(d, CallBack(d, owner), timer, if owner == timer then 1 else 0, [])
  {
    hide Commands;
  }

  lemma SendDrains(d: Daemon, m: Message, timer: nat)
    ensures Drains(d, Send(d, m), timer, 0, if m.timer == timer then [m] else [])
  {
    CommandsAppend(d.queue, m, timer);
  }

  lemma DrainsAddUp(d: Daemon, e: Daemon, r: Daemon, timer: nat, m: nat, n: nat, s: seq<Message>, t: seq<Message>)
    requires Drains(d, e, timer, m, s) && Drains(e, r, timer, n, t)
    ensures Drains(d, r, timer, m + n, s + t)
  {
    hide Commands, Fired;
  }

  // One turn of the loop, up to the point where it tests its condition again.
  function DrainOnce(d: Daemon): (r: Daemon)
    requires Valid(d) && d.current != []
    ensures Valid(r) && DrainCurrentList(d) == DrainCurrentList(r)
    ensures Slack(r.current, WRAP) < Slack(d.current, WRAP)
  {
    var head := d.current[0];
    assert head in d.current;
    var d1 := CallBack(d.(current := d.current[1..]), head.owner);
    var timer := d.timers[head.owner];
    var reload := Item(head.owner, Add(head.value, timer.period));
    DrainStep(d.current, reload);
    InsertMembers(d1.current, reload);
    if !timer.autoReload then d1
    else if reload.value > head.value then d1.(current := Insert(d1.current, reload))
    else Send(d1, Message(Start, head.value, head.owner))
  }

  // What one turn does for a timer that is not at the head: nothing.
  lemma DrainOnceOther(d: Daemon, timer: nat)
    requires Valid(d) && d.current != [] && Distinct(d.current) && timer != d.current[0].owner
    ensures var r := DrainOnce(d);
            && Distinct(r.current) && r.timers == d.timers
            && Drains(d, r, timer, 0, [])
            && (Contains(r.current, timer) <==> Contains(d.current, timer))
            && (forall e: Tick :: Item(timer, e) in d.current <==> Item(timer, e) in r.current)
  {
    hide Contains, Distinct, Sorted, Insert, Commands, Fired, Drains;
    var head := d.current[0];
    assert head in d.current;
    var tail := d.current[1..];
    TailOfDistinct(d.current);
    assert d.current == [head] + tail;
    ContainsCons(head, tail, timer);
    var d0 := d.(current := tail);
    var d1 := CallBack(d0, head.owner);
    CallBackDrains(d0, head.owner, timer);
    SameBooks(d, d0, d1, timer, 0);
    var reload := Item(head.owner, Add(head.value, d.timers[head.owner].period));
    InsertMembers(tail, reload);
    InsertContains(tail, reload, timer);
    InsertKeepsDistinct(tail, reload);
    SameBooks(d, d1, d1.(current := Insert(tail, reload)), timer, 0);
    SendDrains(d1, Message(Start, head.value, head.owner), timer);
    DrainsAddUp(d, d1, Send(d1, Message(Start, head.value, head.owner)), timer, 0, 0, [], []);
    var none: seq<Message> := [];
    assert none + none == none;
  }

  // What one turn does for the timer at the head: it runs, and is listed again one period
  // later if that is before the wrap; otherwise a reloading timer is sent a Start.
  lemma DrainOnceOwn(d: Daemon)
    requires Valid(d) && d.current != [] && Distinct(d.current)
    ensures d.current[0].owner in d.timers && 0 <= d.current[0].value < WRAP
    ensures var head := d.current[0];
            var timer := head.owner;
            var r := DrainOnce(d);
            var again := d.timers[timer].autoReload;
            var next := head.value + d.timers[timer].period;
            && Distinct(r.current) && r.timers == d.timers
            && (again && next < WRAP ==> Drains(d, r, timer, 1, []) && Item(timer, next) in r.current)
            && (again && next >= WRAP ==>
                  Drains(d, r, timer, 1, [Message(Start, head.value, timer)]) && !Contains(r.current, timer))
            && (!again ==> Drains(d, r, timer, 1, []) && !Contains(r.current, timer))
  {
    hide Contains, Distinct, Sorted, Insert, Commands, Fired, Drains;
    var head := d.current[0];
    assert head in d.current;
    var timer := head.owner;
    var tail := d.current[1..];
    TailOfDistinct(d.current);
    var d0 := d.(current := tail);
    var d1 := CallBack(d0, timer);
    CallBackDrains(d0, timer, timer);
    SameBooks(d, d0, d1, timer, 1);
    var reload := Item(timer, Add(head.value, d.timers[timer].period));
    InsertMembers(tail, reload);
    InsertKeepsDistinct(tail, reload);
    SameBooks(d, d1, d1.(current := Insert(tail, reload)), timer, 1);
    var m := Message(Start, head.value, timer);
    SendDrains(d1, m, timer);
    DrainsAddUp(d, d1, Send(d1, m), timer, 1, 0, [], [m]);
    assert [] + [m] == [m];
  }

  lemma SameBooks(d: Daemon, d0: Daemon, d1: Daemon, timer: nat, turns: nat)
    requires (d0.fired == d.fired && d0.queue == d.queue && Drains(d0, d1, timer, turns, []))
          || (d1.fired == d0.fired && d1.queue == d0.queue && Drains(d, d0, timer, turns, []))
    ensures Drains(d, d1, timer, turns, [])
  {
  }

  lemma TailOfDistinct(l: seq<Item>)
    requires l != [] && Distinct(l)
    ensures Distinct(l[1..]) && !Contains(l[1..], l[0].owner)
  {
  }

  lemma NoSecond(l: seq<Item>, timer: nat)
    requires l != [] && Distinct(l)
    ensures timer == l[0].owner ==> forall e :: Item(timer, e) in l ==> e == l[0].value
  {
  }

  lemma {:induction false} SwitchCounts(d: Daemon, timer: nat)
    requires Valid(d) && Distinct(d.current)
    ensures DrainsAsItShould(d, timer)
    decreases Slack(d.current, WRAP)
  {
    hide DrainCurrentList, Distinct, Insert, Slack, Drains, Listed, DrainOnce, Contains, TurnsLeft, LastTurn;
    if d.current == [] {
      NothingToDrain(d, timer);
    } else {
      var head := d.current[0];
      var e := DrainOnce(d);
      if timer != head.owner {
        DrainOnceOther(d, timer);
        SwitchCounts(e, timer);
        OtherTurn(d, e, timer);
      } else {
        DrainOnceOwn(d);
        NoSecond(d.current, timer);
        SwitchCounts(e, timer);
        OwnTurn(d, e, timer);
      }
    }
  }

  lemma NothingToDrain(d: Daemon, timer: nat)
    requires Valid(d) && d.current == []
    ensures DrainsAsItShould(d, timer)
  {
  }

  lemma OtherTurn(d: Daemon, e: Daemon, timer: nat)
    requires Valid(d) && Valid(e) && DrainCurrentList(d) == DrainCurrentList(e) && DrainsAsItShould(e, timer)
    requires Drains(d, e, timer, 0, []) && e.timers == d.timers
    requires Contains(e.current, timer) <==> Contains(d.current, timer)
    requires forall v: Tick :: Item(timer, v) in d.current <==> Item(timer, v) in e.current
    ensures DrainsAsItShould(d, timer)
  {
    hide DrainCurrentList, Contains, Listed, TurnsLeft, LastTurn, Commands, Fired;
  }

  lemma OwnTurn(d: Daemon, e: Daemon, timer: nat)
    requires Valid(d) && Valid(e) && DrainCurrentList(d) == DrainCurrentList(e) && DrainsAsItShould(e, timer)
    requires d.current != [] && d.current[0].owner == timer && timer in d.timers && e.timers == d.timers
    requires 0 <= d.current[0].value < WRAP
    requires forall v: Tick :: Item(timer, v) in d.current ==> v == d.current[0].value
    requires var again := d.timers[timer].autoReload;
             var v := d.current[0].value;
             var next := v + d.timers[timer].period;
             && (again && next < WRAP ==> Drains(d, e, timer, 1, []) && Item(timer, next) in e.current)
             && (again && next >= WRAP ==>
                   Drains(d, e, timer, 1, [Message(Start, v, timer)]) && !Contains(e.current, timer))
             && (!again ==> Drains(d, e, timer, 1, []) && !Contains(e.current, timer))
    ensures DrainsAsItShould(d, timer)
  {
    hide DrainCurrentList, Drains, TurnsLeft, Stamp, Contains, Valid;
    ContainsCons(d.current[0], d.current[1..], timer);
    assert d.current == [d.current[0]] + d.current[1..];
    OwnTurns(d, e, DrainCurrentList(d), timer);
  }

  lemma StampByTurn(e: Tick, P: Period)
    ensures e + P < WRAP ==> TurnsLeft(e, P) == 1 + TurnsLeft(e + P, P) && Stamp(e, P) == Stamp(e + P, P)
    ensures e + P >= WRAP ==> TurnsLeft(e, P) == 1 && Stamp(e, P) == e
  {
    TurnByTurn(e, P);
  }

  // The turn at the head and what the rest of the loop does add up.
  lemma OwnTurns(d: Daemon, e: Daemon, r: Daemon, timer: nat)
    requires d.current != [] && d.current[0].owner == timer && timer in d.timers
    requires 0 <= d.current[0].value < WRAP
    requires var again := d.timers[timer].autoReload;
             var P := d.timers[timer].period;
             var v := d.current[0].value;
             || (again && v + P < WRAP && Drains(d, e, timer, 1, [])
                 && Drains(e, r, timer, TurnsLeft(v + P, P), [Message(Start, Stamp(v + P, P), timer)]))
             || (again && v + P >= WRAP && Drains(d, e, timer, 1, [Message(Start, v, timer)])
                 && Drains(e, r, timer, 0, []))
             || (!again && Drains(d, e, timer, 1, []) && Drains(e, r, timer, 0, []))
    ensures var P := d.timers[timer].period;
            var v := d.current[0].value;
            if d.timers[timer].autoReload
            then Drains(d, r, timer, TurnsLeft(v, P), [Message(Start, Stamp(v, P), timer)])
            else Drains(d, r, timer, 1, [])
  {
    hide Drains, TurnsLeft, Stamp;
    var P := d.timers[timer].period;
    var v: Tick := d.current[0].value;
    StampByTurn(v, P);
    var m := Message(Start, Stamp(v, P), timer);
    var none: seq<Message> := [];
    assert none + [m] == [m] && [m] + none == [m] && none + none == none;
    if !d.timers[timer].autoReload {
      DrainsAddUp(d, e, r, timer, 1, 0, none, none);
    } else if v + P < WRAP {
      DrainsAddUp(d, e, r, timer, 1, TurnsLeft(v + P, P), none, [m]);
    } else {
      DrainsAddUp(d, e, r, timer, 1, 0, [m], none);
    }
  }
}
