// A run in which the command queue of this build is too short: eleven auto-reload timers
// expire just before the tick count wraps, and the daemon sees them only afterwards.
module TimerOverflow {
  import opened Basics
  import opened Ticks
  import opened SortedList
  import opened TimerDaemon
  import opened IdealTimers
  import opened TimerRefinement
  import opened TimerRuns
  import opened TimerBounds

  const COUNT: nat := QUEUE_LENGTH + 1

  // All timers reload every five ticks and are started ten ticks before the wrap.
  const STARTED: nat := WRAP - 10

  const FIVE: Timer := Timer(5, true)

  ghost predicate Created(timers: map<nat, Timer>) {
    forall k :: 1 <= k <= COUNT ==> k in timers && timers[k] == FIVE
  }

  // Timers k, k + 1 and so on are started; each command is taken from the queue before the
  // next one is posted.
  function Starts(k: nat): seq<Event>
    decreases COUNT + 1 - k
  {
    if k > COUNT then []
    else [Posted(Request(Start, STARTED, k)), Received] + Starts(k + 1)
  }

  function History(): seq<Event> { [BeganReceiving(STARTED)] + Starts(1) }

  // Timers 1 to k are listed.
  function Items(k: nat): (l: seq<Item>)
    ensures |l| == k
    ensures forall i :: 0 <= i < k ==> l[i] == Item(i + 1, STARTED + 5)
  {
    seq(k, i requires 0 <= i < k => Item(i + 1, STARTED + 5))
  }

  function Listing(timers: map<nat, Timer>, k: nat): Daemon { Daemon(Items(k), [], [], STARTED, timers, []) }

  // The service has handled every command so far.
  ghost predicate Idle(s: Service, timers: map<nat, Timer>) {
    WellFormed(s) && s.queue == [] && s.now == STARTED && s.timers == timers
  }

  lemma NumbersFit()
    ensures Of(STARTED) == STARTED && Epoch(STARTED) == 0
    ensures Of(WRAP) == 0 && Epoch(WRAP) == 1
    ensures Add(STARTED, 5) == STARTED + 5
    ensures Decide(STARTED + 5, STARTED, STARTED, 5) == IntoCurrent
  {
  }

  lemma NextItem(k: nat)
    ensures Remove(Items(k), k + 1) == Items(k)
    ensures Insert(Items(k), Item(k + 1, STARTED + 5)) == Items(k + 1)
  {
    RemoveNobody(Items(k), k + 1);
    InsertIndexUnique(Items(k), STARTED + 5, k);
  }

  // One timer more.
  lemma CodeStarts(timers: map<nat, Timer>, k: nat)
    requires Created(timers) && 1 <= k <= COUNT
    ensures var posted := Posted(Request(Start, STARTED, k));
            && Valid(Listing(timers, k - 1)) && CodeCan(Listing(timers, k - 1), posted)
            && CodeCan(CodeStep(Listing(timers, k - 1), posted), Received)
            && CodeStep(CodeStep(Listing(timers, k - 1), posted), Received) == Listing(timers, k)
  {
    hide Insert, Remove, Add, Of, Decide;
    NumbersFit();
    NextItem(k - 1);
    RemoveNobody([], k);
    assert timers[k] == FIVE;
    var d := Send(Listing(timers, k - 1), Message(Start, STARTED, k));
    assert d.queue[0] == Message(Start, STARTED, k) && d.queue[1..] == [];
  }

  lemma IdealStarts(s: Service, timers: map<nat, Timer>, k: nat)
    requires Created(timers) && 1 <= k <= COUNT && Idle(s, timers)
    ensures var posted := Posted(Request(Start, STARTED, k));
            && Admissible(s, posted) && Admissible(IdealStep(s, posted), Received)
            && Idle(IdealStep(IdealStep(s, posted), Received), timers)
  {
    hide WellFormed, Insert, Remove;
    assert timers[k] == FIVE;
    var s1 := Ask(s, Request(Start, STARTED, k));
    assert s1.queue[0] == Request(Start, STARTED, k) && s1.queue[1..] == [];
  }

  lemma {:induction false} AllStart(s: Service, timers: map<nat, Timer>, k: nat)
    requires Created(timers) && 1 <= k <= COUNT + 1 && Idle(s, timers)
    ensures AdmissibleRun(s, Starts(k))
    ensures Valid(Listing(timers, k - 1)) && CodeCanRun(Listing(timers, k - 1), Starts(k))
    ensures CodeRun(Listing(timers, k - 1), Starts(k)) == Listing(timers, COUNT)
    ensures Idle(IdealRun(s, Starts(k)), timers)
    decreases COUNT + 1 - k
  {
    hide Admissible, CodeStep, IdealStep, CodeCan, Idle, Created, Items, Valid;
    IdleFacts(s, timers);
    if k > COUNT {
      ListingValid(timers);
    } else {
      var posted := Posted(Request(Start, STARTED, k));
      CodeStarts(timers, k);
      IdealStarts(s, timers, k);
      var s1 := IdealStep(s, posted);
      var s2 := IdealStep(s1, Received);
      AllStart(s2, timers, k + 1);
      TwoMore(s, Listing(timers, k - 1), posted, Received, Starts(k + 1));
    }
  }

  lemma IdleFacts(s: Service, timers: map<nat, Timer>)
    requires Idle(s, timers)
    ensures WellFormed(s)
  {
  }

  lemma ListingValid(timers: map<nat, Timer>)
    requires Created(timers)
    ensures Valid(Listing(timers, COUNT))
  {
  }

  // Two events in front of a run.
  lemma TwoMore(s: Service, d: Daemon, a: Event, b: Event, es: seq<Event>)
    requires WellFormed(s) && Admissible(s, a) && Admissible(IdealStep(s, a), b)
    requires AdmissibleRun(IdealStep(IdealStep(s, a), b), es)
    requires Valid(d) && CodeCan(d, a) && CodeCan(CodeStep(d, a), b) && CodeCanRun(CodeStep(CodeStep(d, a), b), es)
    ensures AdmissibleRun(s, [a, b] + es) && CodeCanRun(d, [a, b] + es)
    ensures IdealRun(s, [a, b] + es) == IdealRun(IdealStep(IdealStep(s, a), b), es)
    ensures CodeRun(d, [a, b] + es) == CodeRun(CodeStep(CodeStep(d, a), b), es)
  {
    hide Admissible, CodeStep, IdealStep, CodeCan, Valid, WellFormed;
    OneMore(IdealStep(s, a), CodeStep(d, a), b, es);
    OneMore(s, d, a, [b] + es);
    assert [a, b] + es == [a] + ([b] + es);
  }

  lemma OneMore(s: Service, d: Daemon, a: Event, es: seq<Event>)
    requires WellFormed(s) && Admissible(s, a) && AdmissibleRun(IdealStep(s, a), es)
    requires Valid(d) && CodeCan(d, a) && CodeCanRun(CodeStep(d, a), es)
    ensures AdmissibleRun(s, [a] + es) && CodeCanRun(d, [a] + es)
    ensures IdealRun(s, [a] + es) == IdealRun(IdealStep(s, a), es)
    ensures CodeRun(d, [a] + es) == CodeRun(CodeStep(d, a), es)
  {
    hide Admissible, CodeStep, IdealStep, CodeCan, Valid, WellFormed;
    assert ([a] + es)[1..] == es;
  }

  lemma Begins(timers: map<nat, Timer>)
    ensures var s, e := IdealBoot(timers), BeganReceiving(STARTED);
            && WellFormed(s) && Admissible(s, e) && Idle(IdealStep(s, e), timers)
            && Valid(Boot(timers)) && CodeCan(Boot(timers), e) && CodeStep(Boot(timers), e) == Listing(timers, 0)
  {
    NumbersFit();
    assert Items(0) == [];
  }

  // Nothing is in the queue, all timers are in the current list, and the next look at the
  // clock, which may be as late as the wrap, stops the firmware.
  ghost predicate Stuck(d: Daemon, s: Service) {
    && Valid(d) && d.queue == [] && |d.current| == COUNT
    && Admissible(s, Woke(WRAP)) && SampleTimeNow(d, Of(WRAP)).1
    && DrainWithin(d, QUEUE_LENGTH) == None
  }

  // From the first state of the daemon, with eleven such timers, an admissible run that
  // leaves all of them in the current list and nothing in the queue.  The daemon may then
  // sleep until the tick count has wrapped, which is when it finds them and stops.
  lemma QueueTooShort(timers: map<nat, Timer>)
    requires Created(timers)
    ensures AdmissibleRun(IdealBoot(timers), History())
    ensures CodeCanRun(Boot(timers), History())
    ensures Stuck(CodeRun(Boot(timers), History()), IdealRun(IdealBoot(timers), History()))
  {
    hide AdmissibleRun, CodeCanRun, CodeRun, IdealRun, CodeStep, IdealStep, DrainWithin;
    Begins(timers);
    var s1 := IdealStep(IdealBoot(timers), BeganReceiving(STARTED));
    AllStart(s1, timers, 1);
    OneMore(IdealBoot(timers), Boot(timers), BeganReceiving(STARTED), Starts(1));
    ListingValid(timers);
    NumbersFit();
    ElevenAreTooMany(Listing(timers, COUNT));
  }
}
