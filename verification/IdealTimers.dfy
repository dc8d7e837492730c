// The timer service in terms of true time: one list of true expiry times, whose values
// never wrap.  Only the moments at which the tick count wraps are still seen, because that
// is when the code catches up.  TimerRefinement.dfy proves that the code in TimerDaemon.dfy
// behaves like this.
module IdealTimers {
  import opened Basics
  import opened Ticks
  import opened SortedList
  import opened TimerDaemon

  // A command with the true time it was issued at; for a ChangePeriod, the new period.
  datatype Request = Request(command: Command, value: nat, timer: nat)

  datatype Service = Service(
    active: seq<Item>,
    queue: seq<Request>,
    now: nat,
    timers: map<nat, Timer>,
    fired: seq<nat>)

  ghost predicate WellFormed(s: Service) {
    && Sorted(s.active)
    && Distinct(s.active)
    && (forall x :: x in s.active ==> 0 <= x.value && x.owner in s.timers)
  }

  function Ask(s: Service, r: Request): Service { s.(queue := s.queue + [r]) }

  function Fire(s: Service, timer: nat): Service { s.(fired := s.fired + [timer]) }

  function Schedule(s: Service, timer: nat, expiry: nat): (r: Service)
    requires WellFormed(s) && timer in s.timers && !Contains(s.active, timer)
    ensures WellFormed(r)
  {
    var x := Item(timer, expiry);
    InsertKeepsSorted(s.active, x);
    InsertKeepsDistinct(s.active, x);
    InsertMembers(s.active, x);
    s.(active := Insert(s.active, x))
  }

  // Taking the first item out leaves a list without its owner.
  lemma HeadIsGone(l: seq<Item>)
    requires l != [] && Sorted(l) && Distinct(l)
    ensures Sorted(l[1..]) && Distinct(l[1..]) && !Contains(l[1..], l[0].owner)
    ensures forall x :: x in l[1..] ==> x in l
    ensures l[0] in l
  {
  }

  // The timer that expires first has reached its expiry time.
  function Expire(s: Service): (r: Service)
    requires WellFormed(s) && s.active != []
    ensures WellFormed(r)
  {
    HeadIsGone(s.active);
    var head := s.active[0];
    var s1 := s.(active := s.active[1..]);
    var timer := s.timers[head.owner];
    var s2 :=
      if !timer.autoReload then s1
      else if head.value + timer.period <= s.now then Ask(s1, Request(Start, head.value, head.owner))
      else Schedule(s1, head.owner, head.value + timer.period);
    Fire(s2, head.owner)
  }

  // Everything due before the limit happens: a timer that reloads to a time before the
  // limit runs again, one that reloads to a later time is asked for anew.
  function CatchUp(s: Service, limit: nat): (r: Service)
    requires WellFormed(s)
    ensures WellFormed(r)
    decreases Slack(s.active, limit)
  {
    if s.active == [] || limit <= s.active[0].value then s
    else
      HeadIsGone(s.active);
      var head := s.active[0];
      var s1 := Fire(s.(active := s.active[1..]), head.owner);
      var timer := s.timers[head.owner];
      var reload := head.value + timer.period;
      if !timer.autoReload then CatchUp(s1, limit)
      else if reload < limit then
        SlackInsert(s1.active, Item(head.owner, reload), limit);
        CatchUp(Schedule(s1, head.owner, reload), limit)
      else CatchUp(Ask(s1, Request(Start, head.value, head.owner)), limit)
  }

  // Time is read.  Whenever the tick count has wrapped, what was due before is caught up with.
  function ReadClock(s: Service, now: nat): (r: Service)
    requires WellFormed(s)
    ensures WellFormed(r)
  {
    if Epoch(now) == Epoch(s.now) then s.(now := now)
    else CatchUp(s, Boundary(Epoch(s.now) + 1)).(now := now)
  }

  // The daemon looks at the clock; unless it had to catch up it runs the first timer if due.
  function Wake(s: Service, now: nat): (r: Service)
    requires WellFormed(s)
    ensures WellFormed(r)
  {
    var s1 := ReadClock(s, now);
    if Epoch(now) == Epoch(s.now) && s1.active != [] && s1.active[0].value <= now then Expire(s1) else s1
  }

  predicate Sensible(r: Request, timers: map<nat, Timer>) {
    && Addressed(r.command, r.timer, timers)
    && (r.command == ChangePeriod ==> 0 < r.value < WRAP)
  }

  function Obey(s: Service): (r: Service)
    requires WellFormed(s) && s.queue != [] && Sensible(s.queue[0], s.timers)
    ensures WellFormed(r)
  {
    var q := s.queue[0];
    RemoveMembers(s.active, q.timer);
    RemoveKeepsOrder(s.active, q.timer);
    RemoveContains(s.active, q.timer, q.timer);
    var s1 := s.(queue := s.queue[1..], active := Remove(s.active, q.timer));
    match q.command
    case Start =>
      var timer := s.timers[q.timer];
      if q.value + timer.period <= s.now then
        var s2 := Fire(s1, q.timer);
        if timer.autoReload then Ask(s2, Request(Start, q.value + timer.period, q.timer)) else s2
      else
        Schedule(s1, q.timer, q.value + timer.period)
    case Stop => s1
    case ChangePeriod =>
      var s2 := s1.(timers := s1.timers[q.timer := s1.timers[q.timer].(period := q.value)]);
      Schedule(s2, q.timer, s.now + q.value)
    case Delete => s1.(timers := s1.timers - {q.timer})
    case Other => s1
  }
}
