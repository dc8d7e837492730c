// Whole runs of the timer daemon: other tasks post commands at any moment between the
// daemon's own steps, and the daemon wakes, samples the clock and empties its queue.
module TimerRuns {
  import opened Basics
  import opened Ticks
  import opened SortedList
  import opened TimerDaemon
  import opened IdealTimers
  import opened TimerRefinement

  datatype Event =
    | Posted(request: Request)      // xTimerGenericCommand by a task or an ISR
    | Woke(now: nat)                // prvGetNextExpireTime and prvProcessTimerOrBlockTask
    | BeganReceiving(now: nat)      // entry of prvProcessReceivedCommands
    | Received                      // one turn of its loop

  // The message as it sits in xTimerQueue.
  function Encoded(r: Request): Message { Message(r.command, Of(r.value), r.timer) }

  predicate CodeCan(d: Daemon, e: Event) {
    e.Received? ==> d.queue != [] && Usable(d.queue[0], d.timers)
  }

  function CodeStep(d: Daemon, e: Event): (r: Daemon)
    requires Valid(d) && CodeCan(d, e)
    ensures Valid(r)
  {
    match e
    case Posted(r) => Send(d, Encoded(r))
    case Woke(now) => ProcessTimerOrBlock(d, Of(now))
    case BeganReceiving(now) => SampleTimeNow(d, Of(now)).0
    case Received => ReceiveCommand(d)
  }

  // What the environment owes the daemon: it runs at least once per wrap, and the
  // commands it finds are timely, sensible and for timers that still exist.
  ghost predicate Admissible(s: Service, e: Event) {
    match e
    case Posted(r) => r.command == ChangePeriod ==> r.value < WRAP
    case Woke(now) => s.now <= now < s.now + WRAP
    case BeganReceiving(now) => s.now <= now < s.now + WRAP
    case Received => s.queue != [] && Acceptable(s.queue[0], s)
  }

  ghost function IdealStep(s: Service, e: Event): (r: Service)
    requires WellFormed(s) && Admissible(s, e)
    ensures WellFormed(r)
  {
    match e
    case Posted(r) => Ask(s, r)
    case Woke(now) => Wake(s, now)
    case BeganReceiving(now) => ReadClock(s, now)
    case Received => Obey(s)
  }

  ghost predicate CodeCanRun(d: Daemon, es: seq<Event>)
    requires Valid(d)
    decreases |es|
  {
    es == [] || (CodeCan(d, es[0]) && CodeCanRun(CodeStep(d, es[0]), es[1..]))
  }

  ghost function CodeRun(d: Daemon, es: seq<Event>): (r: Daemon)
    requires Valid(d) && CodeCanRun(d, es)
    decreases |es|
  {
    if es == [] then d else CodeRun(CodeStep(d, es[0]), es[1..])
  }

  ghost predicate AdmissibleRun(s: Service, es: seq<Event>)
    requires WellFormed(s)
    decreases |es|
  {
    es == [] || (Admissible(s, es[0]) && AdmissibleRun(IdealStep(s, es[0]), es[1..]))
  }

  ghost function IdealRun(s: Service, es: seq<Event>): (r: Service)
    requires WellFormed(s) && AdmissibleRun(s, es)
    decreases |es|
  {
    if es == [] then s else IdealRun(IdealStep(s, es[0]), es[1..])
  }

  lemma StepRefines(d: Daemon, s: Service, e: Event)
    requires Related(d, s) && Admissible(s, e)
    ensures CodeCan(d, e) && Related(CodeStep(d, e), IdealStep(s, e))
  {
    hide Related, Valid, WellFormed, Acceptable, Of, ProcessTimerOrBlock, SampleTimeNow, ReceiveCommand;
    hide Wake, ReadClock, Obey, Usable, Send, Ask;
    RelatedFacts(d, s);
    match e
    case Posted(r) => EncodedMatches(r); SendRelated(d, s, Encoded(r), r);
    case Woke(now) => WakeRefines(d, s, now);
    case BeganReceiving(now) => SampleRefines(d, s, now);
    case Received => ReceiveRefines(d, s);
  }

  lemma EncodedMatches(r: Request)
    requires r.command == ChangePeriod ==> r.value < WRAP
    ensures Matches(Encoded(r), r)
  {
  }

  // Over every admissible run the code stays related to the ideal service; in particular
  // it calls the same callbacks in the same order.
  lemma {:induction false} RunRefines(d: Daemon, s: Service, es: seq<Event>)
    requires Related(d, s) && WellFormed(s) && AdmissibleRun(s, es)
    ensures Valid(d) && CodeCanRun(d, es)
    ensures Related(CodeRun(d, es), IdealRun(s, es))
    ensures CodeRun(d, es).fired == IdealRun(s, es).fired
    decreases |es|
  {
    hide Related, Valid, WellFormed, Admissible, CodeStep, IdealStep, CodeCan;
    RelatedFacts(d, s);
    if es != [] {
      StepRefines(d, s, es[0]);
      RunRefines(CodeStep(d, es[0]), IdealStep(s, es[0]), es[1..]);
    }
  }

  // The state prvCheckForValidListAndQueue sets up, with the timers created so far.
  function Boot(timers: map<nat, Timer>): Daemon { Daemon([], [], [], 0, timers, []) }

  function IdealBoot(timers: map<nat, Timer>): Service { Service([], [], 0, timers, []) }

  lemma BootRelated(timers: map<nat, Timer>)
    ensures Related(Boot(timers), IdealBoot(timers))
  {
    assert Shift([], Boundary(0)) + Shift([], Boundary(1)) == [];
  }

  // List l holds timers of epoch k: item by item, the same timer as in the list of true
  // expiry times, its item value that time modulo the wrap.
  ghost predicate HoldsEpoch(l: seq<Item>, expiries: seq<Item>, k: nat) {
    && |l| == |expiries|
    && forall i :: 0 <= i < |l| ==>
         && l[i].owner == expiries[i].owner
         && expiries[i].value >= 0
         && l[i].value == Of(expiries[i].value)
         && Epoch(expiries[i].value) == k
  }

  // The epoch invariant.  With k the epoch of the last sample: the current list holds
  // exactly the listed timers that expire in epoch k, the overflow list exactly those that
  // expire in epoch k + 1, there are no others, both lists are sorted, and no timer is in
  // them twice.
  ghost predicate EpochInvariant(d: Daemon, expiries: seq<Item>, now: nat) {
    && d.lastTime == Of(now)
    && |d.current| <= |expiries|
    && HoldsEpoch(d.current, expiries[..|d.current|], Epoch(now))
    && HoldsEpoch(d.overflow, expiries[|d.current|..], Epoch(now) + 1)
    && Sorted(d.current) && Sorted(d.overflow) && Distinct(d.current + d.overflow)
  }

  lemma RelatedMeansEpochInvariant(d: Daemon, s: Service)
    requires Related(d, s)
    ensures EpochInvariant(d, s.active, s.now)
  {
    hide Shift, Sorted, Distinct, Of, Epoch, QueueMatches, Boundary, Listed, HoldsEpoch;
    var k := Epoch(s.now);
    var a, b := Shift(d.current, Boundary(k)), Shift(d.overflow, Boundary(k + 1));
    SortedParts(d.current, d.overflow, Boundary(k), Boundary(k + 1));
    DistinctParts(d.current, d.overflow, Boundary(k), Boundary(k + 1));
    ShiftHoldsEpoch(d.current, d.timers, k);
    ShiftHoldsEpoch(d.overflow, d.timers, k + 1);
    assert s.active[..|d.current|] == a;
    assert s.active[|d.current|..] == b;
  }

  lemma ShiftHoldsEpoch(l: seq<Item>, timers: map<nat, Timer>, k: nat)
    requires Listed(l, timers)
    ensures HoldsEpoch(l, Shift(l, Boundary(k)), k)
  {
    forall i | 0 <= i < |l|
      ensures 0 <= l[i].value < WRAP && Of(l[i].value + Boundary(k)) == l[i].value
              && Epoch(l[i].value + Boundary(k)) == k
    {
      assert l[i] in l;
      PartsUnique(l[i].value, k);
    }
  }

  lemma SortedParts(l: seq<Item>, m: seq<Item>, i: int, j: int)
    requires Sorted(Shift(l, i) + Shift(m, j))
    ensures Sorted(l) && Sorted(m)
  {
    var r := Shift(l, i) + Shift(m, j);
    forall p, q | 0 <= p < q < |l| ensures l[p].value <= l[q].value { assert r[p].value <= r[q].value; }
    forall p, q | 0 <= p < q < |m| ensures m[p].value <= m[q].value {
      assert r[|l| + p].value <= r[|l| + q].value;
    }
  }

  lemma DistinctParts(l: seq<Item>, m: seq<Item>, i: int, j: int)
    requires Distinct(Shift(l, i) + Shift(m, j))
    ensures Distinct(l + m)
  {
    var r := Shift(l, i) + Shift(m, j);
    forall p, q | 0 <= p < q < |l + m| ensures (l + m)[p].owner != (l + m)[q].owner {
      assert r[p].owner == (l + m)[p].owner && r[q].owner == (l + m)[q].owner;
    }
  }

  // Every reachable state of the daemon satisfies the epoch invariant, for the true
  // expiry times of the ideal service.
  lemma EpochInvariantAlways(timers: map<nat, Timer>, es: seq<Event>)
    requires AdmissibleRun(IdealBoot(timers), es)
    ensures CodeCanRun(Boot(timers), es)
    ensures var s := IdealRun(IdealBoot(timers), es);
            EpochInvariant(CodeRun(Boot(timers), es), s.active, s.now)
  {
    hide Related, EpochInvariant, AdmissibleRun, CodeCanRun, CodeRun, IdealRun;
    BootRelated(timers);
    RunRefines(Boot(timers), IdealBoot(timers), es);
    RelatedMeansEpochInvariant(CodeRun(Boot(timers), es), IdealRun(IdealBoot(timers), es));
  }

  // A run that is not admissible.  The daemon samples the time and begins to empty its queue;
  // a task starts a timer some ticks later; the daemon takes that command from the queue.
  // The callback is called then and there, a whole period early, exactly if the period and
  // those ticks fit a wrap together: for one tick, whatever the period.
  lemma StartedTooLateRunsTooEarly(timers: map<nat, Timer>, timer: nat, now: nat, late: Period)
    requires timer != NULL && timer in timers && now < WRAP
    ensures var es := [BeganReceiving(now), Posted(Request(Start, now + late, timer)), Received];
            && CodeCanRun(Boot(timers), es)
            && CodeRun(Boot(timers), es).fired == (if late + timers[timer].period <= WRAP then [timer] else [])
            && !AdmissibleRun(IdealBoot(timers), es)
    ensures late == 1 ==> late + timers[timer].period <= WRAP
  {
    hide CodeCanRun, CodeRun, CodeStep, AdmissibleRun, IdealStep, WellFormed;
    var begun, posted := BeganReceiving(now), Posted(Request(Start, now + late, timer));
    StartedTooLate(timers, timer, now, late);
    ThreeSteps(Boot(timers), begun, posted, Received);
    AdmittedThree(IdealBoot(timers), begun, posted, Received);
  }

  lemma StartedTooLate(timers: map<nat, Timer>, timer: nat, now: nat, late: Period)
    requires timer != NULL && timer in timers && now < WRAP
    ensures var begun, posted := BeganReceiving(now), Posted(Request(Start, now + late, timer));
            var d2 := CodeStep(CodeStep(Boot(timers), begun), posted);
            var s0 := IdealBoot(timers);
            && CodeCan(d2, Received)
            && CodeStep(d2, Received).fired == (if late + timers[timer].period <= WRAP then [timer] else [])
            && WellFormed(s0) && Admissible(s0, begun) && Admissible(IdealStep(s0, begun), posted)
            && !Admissible(IdealStep(IdealStep(s0, begun), posted), Received)
  {
    hide Add, Sub, Of, Epoch, Decide, Insert, Remove;
    NowIsSmall(now);
    NowIsSmall(0);
    CommandAfterSample(now, late, timers[timer].period);
    var begun, posted := BeganReceiving(now), Posted(Request(Start, now + late, timer));
    var d1 := CodeStep(Boot(timers), begun);
    assert d1 == Daemon([], [], [], now, timers, []);
    var d2 := CodeStep(d1, posted);
    assert d2 == Daemon([], [], [Message(Start, Of(now + late), timer)], now, timers, []);
    RemoveNobody([], timer);
  }

  lemma ThreeSteps(d: Daemon, a: Event, b: Event, c: Event)
    requires Valid(d) && CodeCan(d, a) && CodeCan(CodeStep(d, a), b) && CodeCan(CodeStep(CodeStep(d, a), b), c)
    ensures CodeCanRun(d, [a, b, c])
    ensures CodeRun(d, [a, b, c]) == CodeStep(CodeStep(CodeStep(d, a), b), c)
  {
    hide CodeCan, CodeStep, Valid;
    var d1 := CodeStep(d, a);
    var d2 := CodeStep(d1, b);
    var d3 := CodeStep(d2, c);
    assert [a, b, c][1..] == [b, c] && [b, c][1..] == [c] && [c][1..] == [];
    assert CodeCanRun(d3, []) && CodeRun(d3, []) == d3;
    assert CodeCanRun(d2, [c]) && CodeRun(d2, [c]) == d3;
    assert CodeCanRun(d1, [b, c]) && CodeRun(d1, [b, c]) == d3;
  }

  lemma AdmittedThree(s: Service, a: Event, b: Event, c: Event)
    requires WellFormed(s) && Admissible(s, a) && Admissible(IdealStep(s, a), b)
    ensures AdmissibleRun(s, [a, b, c]) ==> Admissible(IdealStep(IdealStep(s, a), b), c)
  {
    hide Admissible, IdealStep, WellFormed;
    var s1 := IdealStep(s, a);
    var s2 := IdealStep(s1, b);
    assert [a, b, c][1..] == [b, c] && [b, c][1..] == [c];
    if AdmissibleRun(s, [a, b, c]) {
      assert AdmissibleRun(s1, [b, c]);
      assert AdmissibleRun(s2, [c]);
    }
  }

  lemma NowIsSmall(now: nat)
    requires now < WRAP
    ensures Of(now) == now && Epoch(now) == 0
  {
  }
}
