// The timer service task of utilities/FreeRTOSV7.3.0/timers_rtos.c, function by
// function, on the values its static variables hold.  TimerTask.dfy is the same
// code on mutable fields and is proved to compute these functions.
module TimerDaemon {
  import opened Basics
  import opened Ticks
  import opened SortedList

  // Other stands for every number that is none of the four.
  datatype Command = Start | Stop | ChangePeriod | Delete | Other

  // The null handle; no timer has it.
  const NULL: nat := 0

  // An entry of xTimerQueue.  The value of a Start is the tick it was issued at, that of
  // a ChangePeriod the new period.
  datatype Message = Message(command: Command, value: Tick, timer: nat)

  datatype Timer = Timer(period: Period, autoReload: bool)

  // fired is the history of callback calls; timers holds the timers not deleted.
  datatype Daemon = Daemon(
    current: seq<Item>,
    overflow: seq<Item>,
    queue: seq<Message>,
    lastTime: Tick,
    timers: map<nat, Timer>,
    fired: seq<nat>)

  ghost predicate Listed(l: seq<Item>, timers: map<nat, Timer>) {
    forall x :: x in l ==> 0 <= x.value < WRAP && x.owner in timers
  }

  ghost predicate Valid(d: Daemon) {
    Listed(d.current, d.timers) && Listed(d.overflow, d.timers)
  }

  function Send(d: Daemon, m: Message): Daemon { d.(queue := d.queue + [m]) }

  function CallBack(d: Daemon, timer: nat): Daemon { d.(fired := d.fired + [timer]) }

  datatype Decision = Immediately | IntoCurrent | IntoOverflow

  // The branches of prvInsertTimerInActiveList.
  function Decide(next: Tick, now: Tick, command: Tick, period: Period): Decision {
    if next <= now then
      if Sub(now, command) >= period then Immediately else IntoOverflow
    else
      if now < command && next >= command then Immediately else IntoCurrent
  }

  // What prvInsertTimerInActiveList does with its decision.  Its result xProcessTimerNow
  // is decision == Immediately; in that case no list changes.
  function InsertTimerInActiveList(d: Daemon, timer: nat, next: Tick, decision: Decision): (r: Daemon)
    requires Valid(d) && timer in d.timers
    ensures Valid(r)
  {
    var item := Item(timer, next);
    InsertMembers(d.overflow, item);
    InsertMembers(d.current, item);
    match decision
    case Immediately => d
    case IntoOverflow => d.(overflow := Insert(d.overflow, item))
    case IntoCurrent => d.(current := Insert(d.current, item))
  }

  // prvProcessExpiredTimer
  function ProcessExpiredTimer(d: Daemon, next: Tick, now: Tick): (r: Daemon)
    requires Valid(d) && d.current != []
    ensures Valid(r)
  {
    var t := d.current[0].owner;
    var d1 := d.(current := d.current[1..]);
    assert d.current[0] in d.current;
    if d.timers[t].autoReload then
      var reload := Add(next, d.timers[t].period);
      var decision := Decide(reload, now, next, d.timers[t].period);
      var d2 := InsertTimerInActiveList(d1, t, reload, decision);
      CallBack(if decision == Immediately then Send(d2, Message(Start, next, t)) else d2, t)
    else
      CallBack(d1, t)
  }

  // The loop of prvSwitchTimerLists.
  function DrainCurrentList(d: Daemon): (r: Daemon)
    requires Valid(d)
    ensures Valid(r) && r.current == []
    decreases Slack(d.current, WRAP)
  {
    if d.current == [] then d
    else
      var head := d.current[0];
      assert head in d.current;
      var d1 := CallBack(d.(current := d.current[1..]), head.owner);
      var timer := d.timers[head.owner];
      var reload := Add(head.value, timer.period);
      if !timer.autoReload then
        DrainCurrentList(d1)
      else if reload > head.value then
        DrainStep(d.current, Item(head.owner, reload));
        InsertMembers(d1.current, Item(head.owner, reload));
        DrainCurrentList(d1.(current := Insert(d1.current, Item(head.owner, reload))))
      else
        DrainCurrentList(Send(d1, Message(Start, head.value, head.owner)))
  }

  // Every turn of the loop brings the listed timers closer to the end of the epoch.
  lemma DrainStep(l: seq<Item>, reload: Item)
    requires l != [] && l[0].value < WRAP
    ensures Slack(l[1..], WRAP) < Slack(l, WRAP)
    ensures l[0].value < reload.value < WRAP ==> Slack(Insert(l[1..], reload), WRAP) < Slack(l, WRAP)
  {
    SlackInsert(l[1..], reload, WRAP);
  }

  // prvSwitchTimerLists
  function SwitchTimerLists(d: Daemon): (r: Daemon)
    requires Valid(d)
    ensures Valid(r)
  {
    var e := DrainCurrentList(d);
    e.(current := e.overflow, overflow := e.current)
  }

  // prvSampleTimeNow; the flag is *pxTimerListsWereSwitched.
  function SampleTimeNow(d: Daemon, now: Tick): (r: (Daemon, bool))
    requires Valid(d)
    ensures Valid(r.0)
  {
    if now < d.lastTime then (SwitchTimerLists(d).(lastTime := now), true)
    else (d.(lastTime := now), false)
  }

  // One prvGetNextExpireTime followed by prvProcessTimerOrBlockTask.
  function ProcessTimerOrBlock(d: Daemon, now: Tick): (r: Daemon)
    requires Valid(d)
    ensures Valid(r)
  {
    var (s, switched) := SampleTimeNow(d, now);
    if !switched && d.current != [] && d.current[0].value <= now then
      assert d.current[0] in d.current;
      ProcessExpiredTimer(s, d.current[0].value, now)
    else s
  }

  // The time prvProcessTimerOrBlockTask blocks for, if it blocks: up to the head of the
  // current list, or up to tick zero if the list is empty.  vQueueWaitForMessageRestricted
  // does not block if a command is waiting.
  function BlockTime(d: Daemon, now: Tick): Option<Tick>
    requires Valid(d)
  {
    if SampleTimeNow(d, now).1 || d.queue != [] then None
    else if d.current == [] then Some(Sub(0, now))
    else
      assert d.current[0] in d.current;
      if d.current[0].value <= now then None else Some(Sub(d.current[0].value, now))
  }

  // A command that starts a timer or changes its period needs a timer; the others may come
  // with the null handle.  A timer that is addressed has not been deleted.
  predicate Addressed(command: Command, timer: nat, timers: map<nat, Timer>) {
    if timer == NULL then NULL !in timers && command != Start && command != ChangePeriod else timer in timers
  }

  // A message prvProcessReceivedCommands can act on: the configASSERT at line 563 holds, too.
  predicate Usable(m: Message, timers: map<nat, Timer>) {
    Addressed(m.command, m.timer, timers) && (m.command == ChangePeriod ==> m.value > 0)
  }

  // One turn of the loop of prvProcessReceivedCommands.  Its xTimeNow is the time sampled
  // when the function was entered, which is lastTime.
  function ReceiveCommand(d: Daemon): (r: Daemon)
    requires Valid(d) && d.queue != [] && Usable(d.queue[0], d.timers)
    ensures Valid(r)
  {
    var m := d.queue[0];
    var now := d.lastTime;
    RemoveMembers(d.current, m.timer);
    RemoveMembers(d.overflow, m.timer);
    var d1 := d.(queue := d.queue[1..], current := Remove(d.current, m.timer), overflow := Remove(d.overflow, m.timer));
    match m.command
    case Start =>
      var period := d1.timers[m.timer].period;
      var decision := Decide(Add(m.value, period), now, m.value, period);
      var d2 := InsertTimerInActiveList(d1, m.timer, Add(m.value, period), decision);
      if decision != Immediately then d2
      else
        var d3 := CallBack(d2, m.timer);
        if d3.timers[m.timer].autoReload then Send(d3, Message(Start, Add(m.value, period), m.timer)) else d3
    case Stop => d1
    case ChangePeriod =>
      var d2 := d1.(timers := d1.timers[m.timer := d1.timers[m.timer].(period := m.value)]);
      InsertTimerInActiveList(d2, m.timer, Add(now, m.value), Decide(Add(now, m.value), now, now, m.value))
    case Delete => d1.(timers := d1.timers - {m.timer})
    case Other => d1
  }

  // The two nested comparisons decide one thing: whether a full period has gone by on
  // the wrapping clock since the command was issued.
  lemma DecisionIsModular(now: Tick, command: Tick, period: Period)
    ensures Decide(Add(command, period), now, command, period) == Immediately <==> Sub(now, command) >= period
  {
  }

  // What the decision should be for a command issued at true time stamp and handled at
  // true time now.
  predicate RightDecision(decision: Decision, stamp: nat, now: nat, period: Period) {
    match decision
    case Immediately => stamp + period <= now
    case IntoCurrent => now < stamp + period && Epoch(stamp + period) == Epoch(now)
    case IntoOverflow => now < stamp + period && Epoch(stamp + period) == Epoch(now) + 1
  }

  // The command is not from the future, and if it is a whole wrap old that does not show.
  predicate Timely(stamp: nat, now: nat, period: Period) {
    stamp <= now && (now - stamp < WRAP || (now - stamp) % WRAP >= period)
  }

  lemma DifferenceIs(now: nat, stamp: nat)
    ensures Sub(Of(now), Of(stamp)) == (now - stamp) % WRAP
  {
  }

  lemma SumIs(stamp: nat, period: Period)
    ensures var sum := Of(stamp) + period;
            if sum < WRAP then Add(Of(stamp), period) == sum && Epoch(stamp + period) == Epoch(stamp)
            else Add(Of(stamp), period) == sum - WRAP && Epoch(stamp + period) == Epoch(stamp) + 1
  {
  }

  // The decision is right for timely commands and for no others.
  lemma DecisionIsExact(stamp: nat, now: nat, period: Period)
    ensures RightDecision(Decide(Add(Of(stamp), period), Of(now), Of(stamp), period), stamp, now, period)
       <==> Timely(stamp, now, period)
  {
    hide Of, Epoch, Sub, Add;
    DecisionIsModular(Of(now), Of(stamp), period);
    DifferenceIs(now, stamp);
    Parts(now);
    Parts(stamp);
    SumIs(stamp, period);
  }

  // A command issued late ticks after the daemon sampled the time, before it emptied its
  // queue, is processed at once exactly if the period and those ticks fit a wrap together.
  // Whatever is decided, it is wrong.
  lemma CommandAfterSample(now: nat, late: Period, period: Period)
    ensures var decision := Decide(Add(Of(now + late), period), Of(now), Of(now + late), period);
            && (decision == Immediately <==> late + period <= WRAP)
            && !RightDecision(decision, now + late, now, period)
  {
    hide Of, Sub, Decide, RightDecision;
    DecisionIsModular(Of(now), Of(now + late), period);
    DifferenceBack(now, late);
    DecisionIsExact(now + late, now, period);
  }

  lemma DifferenceBack(now: nat, late: Period)
    ensures Sub(Of(now), Of(now + late)) == WRAP - late
  {
  }

  // So a timer of any period started one tick after the sample fires at once.
  lemma CommandAfterSampleFiresAtOnce(now: nat, period: Period)
    ensures Decide(Add(Of(now + 1), period), Of(now), Of(now + 1), period) == Immediately
    ensures !RightDecision(Immediately, now + 1, now, period)
  {
    hide Of, Decide, RightDecision;
    CommandAfterSample(now, 1, period);
  }

  // The reload computed by CHANGE_PERIOD is never due at once, which is why the result
  // ignored at line 564 does not matter.
  lemma ChangePeriodNeverImmediate(now: Tick, period: Period)
    ensures Decide(Add(now, period), now, now, period) != Immediately
  {
  }
}
