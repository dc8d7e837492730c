// The functions of utilities/FreeRTOSV7.3.0/queue.c that block, on mutable fields: the loops
// of xQueueGenericSend and xQueueGenericReceive, with prvLockQueue and prvUnlockQueue, are
// proved to be runs of the step relation of QueueLocking, whatever other tasks and
// interrupts do between any two of their critical sections.
module QueueCalls {
  import opened Basics
  import opened QueueLocking
  import opened QueueSleep

  // ---- what others do ----

  // The step is one of task t.
  predicate Own(s: State, l: Label, t: Task) {
    match l
    case CallOp(u, _, _) => u == t
    case Attempt(u, _) => u == t
    case Lock(u) => u == t
    case TimedOut(_) => false
    case IsrSend(_) => false
    case IsrReceive(_) => false
    case _ => s.region.Held? && s.region.task == t
  }

  // A run in which no step is one of task t.
  predicate ByOthers(s: State, ls: seq<Label>, t: Task)
    decreases |ls|
  {
    ls == [] || (Enabled(s, ls[0]) && !Own(s, ls[0], t) && ByOthers(Next(s, ls[0]), ls[1..], t))
  }

  // What the attempts and time-outs of one task in a run come to: how often it got what it
  // wanted, and how often its block time was over.
  datatype Tally = Tally(got: nat, expired: nat)

  function Plus(a: Tally, b: Tally): Tally { Tally(a.got + b.got, a.expired + b.expired) }

  function TallyOf(s: State, l: Label, t: Task): Tally {
    if !Own(s, l, t) then Tally(0, 0)
    else
      match l
      case Attempt(_, _) => if CallOf(s, t).AtTop? && Succeeds(s, CallOf(s, t).op) then Tally(1, 0) else Tally(0, 0)
      case CheckForTimeOut(expired) => if expired then Tally(0, 1) else Tally(0, 0)
      case _ => Tally(0, 0)
  }

  function Tallied(s: State, ls: seq<Label>, t: Task): Tally
    requires CanRun(s, ls)
    decreases |ls|
  {
    if ls == [] then Tally(0, 0) else Plus(TallyOf(s, ls[0], t), Tallied(Next(s, ls[0]), ls[1..], t))
  }

  // For task t nothing has changed but, perhaps, whether it waits.
  predicate Stays(s: State, r: State, t: Task) {
    && CallOf(r, t) == CallOf(s, t)
    && ((s.region.Held? && s.region.task == t) || (r.region.Held? && r.region.task == t) ==> r.region == s.region)
  }

  lemma OneOther(s: State, l: Label, t: Task)
    requires Enabled(s, l) && !Own(s, l, t)
    ensures Stays(s, Next(s, l), t)
  {
  }

  lemma {:induction false} OthersStay(s: State, ls: seq<Label>, t: Task)
    requires ByOthers(s, ls, t)
    ensures CanRun(s, ls) && Stays(s, Run(s, ls), t) && Tallied(s, ls, t) == Tally(0, 0)
    decreases |ls|
  {
    hide Enabled, Next, Own;
    if ls != [] {
      OneOther(s, ls[0], t);
      OthersStay(Next(s, ls[0]), ls[1..], t);
    }
  }

  lemma {:induction false} TallyOn(s: State, a: seq<Label>, b: seq<Label>, t: Task)
    requires CanRun(s, a) && CanRun(Run(s, a), b)
    ensures CanRun(s, a + b) && Tallied(s, a + b, t) == Plus(Tallied(s, a, t), Tallied(Run(s, a), b, t))
    decreases |a|
  {
    hide Enabled, Next, TallyOf;
    if a == [] {
      assert a + b == b;
    } else {
      assert (a + b)[1..] == a[1..] + b;
      TallyOn(Next(s, a[0]), a[1..], b, t);
    }
  }

  // Where labels ls lead, and what they come to for task t.
  datatype Point = Nowhere | At(state: State, tally: Tally)

  function Trail(start: State, ls: seq<Label>, t: Task): Point {
    if CanRun(start, ls) then At(Run(start, ls), Tallied(start, ls, t)) else Nowhere
  }

  // The state after a step, if the step is possible.
  function After(s: State, l: Label): Option<State> { if Enabled(s, l) then Some(Next(s, l)) else None }

  lemma NothingYet(s: State, t: Task)
    ensures Trail(s, [], t) == At(s, Tally(0, 0))
  {
  }

  lemma Step(start: State, ls: seq<Label>, s: State, t: Task, k: Tally, l: Label, r: State)
    requires Trail(start, ls, t) == At(s, k) && After(s, l) == Some(r)
    ensures Trail(start, ls + [l], t) == At(r, Plus(k, TallyOf(s, l, t)))
  {
    hide Enabled, Next, TallyOf;
    RunOne(s, l);
    RunOn(start, ls, [l]);
    TallyOn(start, ls, [l], t);
    assert Tallied(s, [l], t) == Plus(TallyOf(s, l, t), Tallied(Next(s, l), [l][1..], t));
  }

  lemma OthersStep(start: State, ls: seq<Label>, s: State, t: Task, k: Tally, more: seq<Label>)
    requires Trail(start, ls, t) == At(s, k) && ByOthers(s, more, t)
    ensures CanRun(s, more) && Trail(start, ls + more, t) == At(Run(s, more), k) && Stays(s, Run(s, more), t)
  {
    hide CanRun, Run, Tallied, Stays, ByOthers;
    OthersStay(s, more, t);
    RunOn(start, ls, more);
    TallyOn(start, ls, more, t);
  }

  // Steps that are neither an attempt nor the end of the block time do not count.
  lemma QuietStep(start: State, ls: seq<Label>, s: State, t: Task, k: Tally, l: Label, r: State)
    requires Trail(start, ls, t) == At(s, k) && After(s, l) == Some(r)
    requires !l.Attempt? && !l.CheckForTimeOut?
    ensures Trail(start, ls + [l], t) == At(r, k)
  {
    hide After, Trail;
    Step(start, ls, s, t, k, l, r);
    assert Plus(k, TallyOf(s, l, t)) == k;
  }

  // What an attempt means for the task.
  lemma AttemptCounts(s: State, t: Task, op: Op, woke: set<Task>)
    requires CanTry(s, t, op)
    ensures TallyOf(s, Attempt(t, woke), t) == if Succeeds(s, op) then Tally(1, 0) else Tally(0, 0)
  {
    hide Succeeds, CanTry;
    TryFacts(s, t, op);
    assert Own(s, Attempt(t, woke), t);
    assert CallOf(s, t).op == op;
    assert Succeeds(s, CallOf(s, t).op) == Succeeds(s, op);
  }

  lemma PlusNone(k: Tally)
    ensures Plus(Tally(0, 0), k) == k && Plus(k, Tally(0, 0)) == k
  {
  }

  lemma AttemptLeaves(s: State, t: Task, op: Op, woke: set<Task>, r: State)
    requires CanTry(s, t, op) && After(s, Attempt(t, woke)) == Some(r)
    ensures r.region == Free
    ensures CallOf(r, t) == if !Succeeds(s, op) && CallOf(s, t).block then Suspending(op) else Outside
    ensures !Succeeds(s, op) ==> !Succeeds(r, op)
  {
    hide Wakes;
  }

  lemma LockIs(s: State, t: Task, op: Op)
    requires s.region == Free && CallOf(s, t) == Suspending(op)
    ensures Enabled(s, Lock(t)) && Next(s, Lock(t)).region == Held(t, op, Locked)
    ensures Succeeds(Next(s, Lock(t)), op) == Succeeds(s, op)
  {
  }

  lemma CheckIs(s: State, t: Task, op: Op, expired: bool)
    requires s.region == Held(t, op, Locked) && op != Wait
    ensures var l := CheckForTimeOut(expired);
            && Enabled(s, l) && TallyOf(s, l, t) == (if expired then Tally(0, 1) else Tally(0, 0))
            && Next(s, l) == s.(region := Held(t, op, if expired then UnlockTx(false) else Checked))
  {
  }

  lemma TrailIs(start: State, ls: seq<Label>, s: State, t: Task, k: Tally)
    requires Trail(start, ls, t) == At(s, k)
    ensures CanRun(start, ls) && Run(start, ls) == s && Tallied(start, ls, t) == k
  {
  }

  lemma TrailKeeps(start: State, ls: seq<Label>, s: State, t: Task, k: Tally)
    requires Inv(start) && Trail(start, ls, t) == At(s, k)
    ensures Inv(s)
  {
    hide Inv;
    RunKeeps(start, ls);
  }

  // A task about to be placed in a list is in none.
  lemma NotPlacedYet(s: State, t: Task)
    requires Inv(s) && s.region.Held? && s.region.task == t && s.region.stage == Placing
    ensures t !in s.waitR && t !in s.waitS
  {
    NotQueued(s, t);
  }

  lemma Inserted(ts: seq<Task>, t: Task, k: nat)
    requires NoRepeats(ts) && t !in Elements(ts) && k <= |ts|
    ensures NoRepeats(ts[..k] + [t] + ts[k..])
    ensures Elements(ts[..k] + [t] + ts[k..]) == Elements(ts) + {t}
  {
    var r := ts[..k] + [t] + ts[k..];
    assert ts == ts[..k] + ts[k..];
    forall i, j | 0 <= i < j < |r| ensures r[i] != r[j] {
      assert i != k ==> r[i] == ts[if i < k then i else i - 1];
      assert j != k ==> r[j] == ts[if j < k then j else j - 1];
    }
  }

  // ---- the queue ----

  // What others do at one point of a call, and the order in which they leave the lists.
  datatype Gap = Gap(steps: seq<Label>, receivers: seq<Task>, senders: seq<Task>)

  // What happens during one turn of the loop: at each point at which others can run, whether
  // the block time is over, and where in the event list the priority of the task puts it.
  datatype Turn = Turn(top: Gap, suspending: Gap, locked: Gap, checked: Gap, placing: Gap, unlocking: Gap,
                       unlocked: Gap, expired: bool, place: nat)

  // Unfinished: the task is still in its call when nothing more happens.
  datatype Outcome = Passed | Failed | Unfinished

  // Others do nothing during the turn.
  predicate Silent(turn: Turn) {
    && turn.top.steps == [] && turn.suspending.steps == [] && turn.locked.steps == [] && turn.checked.steps == []
    && turn.placing.steps == [] && turn.unlocking.steps == [] && turn.unlocked.steps == []
  }

  predicate AllSilent(turns: seq<Turn>) { forall i :: 0 <= i < |turns| ==> Silent(turns[i]) }

  // Nothing else happens, and the block time is not over at once.
  predicate Undisturbed(turns: seq<Turn>) { turns != [] && AllSilent(turns) && !turns[0].expired }

  // What a call with that outcome should come to.
  function Worth(r: Outcome, block: bool): Tally {
    match r
    case Passed => Tally(1, 0)
    case Failed => Tally(0, if block then 1 else 0)
    case Unfinished => Tally(0, 0)
  }

  function Taking(xJustPeeking: bool): Op { if xJustPeeking then Peek else Receive }

  // The task can make its attempt: it runs, and nobody holds the scheduler.
  predicate CanTry(s: State, t: Task, op: Op) {
    s.region == Free && t !in s.waitR + s.waitS && CallOf(s, t).AtTop? && CallOf(s, t).op == op && op != Wait
  }

  predicate TriesInVain(s: State, t: Task, op: Op) { CanTry(s, t, op) && !Succeeds(s, op) }

  // The task is between two stretches of its call.
  predicate InCall(s: State, t: Task, op: Op, block: bool) {
    CallOf(s, t) == AtTop(op, block) || (CallOf(s, t) == Suspending(op) && block)
  }

  // It waits at the head of its loop.
  predicate IsAsleep(s: State, t: Task, op: Op) { WaitsFor(s, t, op) && CallOf(s, t) == AtTop(op, true) }

  lemma InCallOrNot(s: State, t: Task, op: Op, block: bool)
    ensures InCall(s, t, op, block) ==> CallOf(s, t) != Outside
  {
  }

  lemma Entered(s: State, t: Task, op: Op, block: bool, r: State)
    requires After(s, CallOp(t, op, block)) == Some(r) && op != Wait
    ensures InCall(r, t, op, block)
    ensures Quiet(s, t, op) ==> TriesInVain(r, t, op)
  {
  }

  lemma SleepsOn(s: State, t: Task, op: Op)
    ensures IsAsleep(Asleep(s, t, op), t, op)
  {
  }

  lemma FallenAsleep(start: State, ls: seq<Label>, s: State, t: Task, op: Op, woke: set<Task>, also: set<Task>)
    requires Quiet(start, t, op) && Trail(start, ls, t) == At(s, Tally(0, 0))
    requires ls == BlockSteps([CallOp(t, op, true)] + [Attempt(t, {})], t, woke, also)
    ensures s == Asleep(start, t, op)
  {
    hide Quiet, Asleep, Trail, BlockSteps;
    TrailIs(start, ls, s, t, Tally(0, 0));
    StepsAre(t, op, woke, also);
    NobodyElseWoken(start, t, op, woke, also);
  }

  lemma StepsAre(t: Task, op: Op, woke: set<Task>, also: set<Task>)
    ensures SleepSteps(t, op, woke, also) == BlockSteps([CallOp(t, op, true)] + [Attempt(t, {})], t, woke, also)
  {
  }

  lemma TryFacts(s: State, t: Task, op: Op)
    requires CanTry(s, t, op)
    ensures s.region == Free && CallOf(s, t) == AtTop(op, CallOf(s, t).block)
  {
  }

  lemma NobodyWoken(ts: set<Task>)
    ensures Wakes({}, ts, 0)
  {
  }

  // The count, lock counts and event lists of a queue.  The lists are in priority order.
  // rest holds what else the step relation knows, about tasks and the scheduler; its own
  // counts and sets of waiting tasks are not used.
  class EventQueue {
    var uxMessagesWaiting: nat
    var uxLength: nat
    var xTxLock: int
    var xRxLock: int
    var xTasksWaitingToReceive: seq<Task>
    var xTasksWaitingToSend: seq<Task>
    var rest: State

    ghost predicate Valid()
      reads this
    {
      NoRepeats(xTasksWaitingToReceive) && NoRepeats(xTasksWaitingToSend)
    }

    // The queue as the step relation sees it.
    function View(): State
      reads this
    {
      rest.(messages := uxMessagesWaiting, length := uxLength, txLock := xTxLock, rxLock := xRxLock,
            waitR := Elements(xTasksWaitingToReceive), waitS := Elements(xTasksWaitingToSend))
    }

    // xQueueGenericCreate
    constructor (uxQueueLength: nat)
      requires uxQueueLength > 0
      ensures Valid() && Initial(View()) && View().messages == 0 && View().length == uxQueueLength
    {
      NothingIn();
      uxMessagesWaiting, uxLength, xTxLock, xRxLock := 0, uxQueueLength, UNLOCKED, UNLOCKED;
      xTasksWaitingToReceive, xTasksWaitingToSend := [], [];
      rest := State(0, uxQueueLength, UNLOCKED, UNLOCKED, Free, map[], {}, {}, {}, {});
    }

    // Others run.  A gap that does not fit is passed over; all that others can do is in some
    // gap that fits.
    method Others(g: Gap, t: Task) returns (ls: seq<Label>)
      requires Valid()
      modifies this
      ensures Valid() && ByOthers(old(View()), ls, t)
      ensures CanRun(old(View()), ls) && View() == Run(old(View()), ls)
      ensures g.steps == [] ==> ls == [] && View() == old(View())
    {
      hide NoRepeats, Elements, Own, Enabled, Next;
      ls := [];
      if ByOthers(View(), g.steps, t) && NoRepeats(g.receivers) && NoRepeats(g.senders) {
        OthersStay(View(), g.steps, t);
        var r := Run(View(), g.steps);
        if r.waitR == Elements(g.receivers) && r.waitS == Elements(g.senders) {
          ls, rest := g.steps, r;
          uxMessagesWaiting, uxLength, xTxLock, xRxLock := r.messages, r.length, r.txLock, r.rxLock;
          xTasksWaitingToReceive, xTasksWaitingToSend := g.receivers, g.senders;
        }
      }
    }

    // The first critical section of xQueueGenericSend.
    method TrySend(t: Task) returns (passed: bool, woke: set<Task>)
      requires Valid() && CanTry(View(), t, Send)
      modifies this
      ensures Valid()
      ensures After(old(View()), Attempt(t, woke)) == Some(View())
      ensures passed == Succeeds(old(View()), Send) && (!passed ==> woke == {})
    {
      hide NoRepeats, Elements, Wakes;
      var waiting := xTasksWaitingToReceive;
      woke := {};
      if uxMessagesWaiting < uxLength {
        FrontWakes(waiting, 1);
        NoRepeatsAfter(waiting, Min(1, |waiting|));
        woke := Elements(waiting[..Min(1, |waiting|)]);
        var next := Next(View(), Attempt(t, woke));
        uxMessagesWaiting := uxMessagesWaiting + 1;
        if waiting != [] {
          FirstAlone(waiting);
          xTasksWaitingToReceive := waiting[1..];
        }
        rest := next;
        passed := true;
      } else {
        NobodyWoken(Elements(waiting));
        rest := Next(View(), Attempt(t, {}));
        passed := false;
      }
    }

    // The first critical section of xQueueGenericReceive.
    method TryReceive(t: Task, xJustPeeking: bool) returns (passed: bool, woke: set<Task>)
      requires Valid() && CanTry(View(), t, Taking(xJustPeeking))
      modifies this
      ensures Valid()
      ensures After(old(View()), Attempt(t, woke)) == Some(View())
      ensures passed == Succeeds(old(View()), Taking(xJustPeeking)) && (!passed ==> woke == {})
    {
      hide NoRepeats, Elements, Wakes;
      woke := {};
      if uxMessagesWaiting > 0 {
        var waiting := if xJustPeeking then xTasksWaitingToReceive else xTasksWaitingToSend;
        FrontWakes(waiting, 1);
        NoRepeatsAfter(waiting, Min(1, |waiting|));
        woke := Elements(waiting[..Min(1, |waiting|)]);
        var next := Next(View(), Attempt(t, woke));
        if !xJustPeeking {
          uxMessagesWaiting := uxMessagesWaiting - 1;
          if xTasksWaitingToSend != [] {
            FirstAlone(waiting);
            xTasksWaitingToSend := xTasksWaitingToSend[1..];
          }
        } else {
          if xTasksWaitingToReceive != [] {
            FirstAlone(waiting);
            xTasksWaitingToReceive := xTasksWaitingToReceive[1..];
          }
        }
        rest := next;
        passed := true;
      } else {
        NobodyWoken(Elements(if xJustPeeking then xTasksWaitingToReceive else xTasksWaitingToSend));
        rest := Next(View(), Attempt(t, {}));
        passed := false;
      }
    }

    // vTaskSuspendAll and prvLockQueue, by a task that found it has to block, or by the
    // timer task in vQueueWaitForMessageRestricted: the step Lock of the one, the step
    // CallOp of the other.
    method LockQueue(t: Task, op: Op)
      requires Valid()
      requires if op == Wait then Enabled(View(), CallOp(t, Wait, true))
               else Enabled(View(), Lock(t)) && CallOf(View(), t) == Suspending(op)
      modifies this`xRxLock, this`xTxLock, this`rest
      ensures Valid()
      ensures View() == Next(old(View()), if op == Wait then CallOp(t, Wait, true) else Lock(t))
    {
      hide NoRepeats, Elements;
      var entered := EnterLocked(View(), t, op);
      if xRxLock == UNLOCKED {
        xRxLock := 0;
      }
      if xTxLock == UNLOCKED {
        xTxLock := 0;
      }
      rest := entered;
    }

    // The first critical section of prvUnlockQueue: the step UnlockTxStep for the tasks at
    // the head of the list.
    method UnlockTxSection() returns (woke: set<Task>)
      requires Valid() && rest.region.Held? && rest.region.stage.UnlockTx?
      modifies this`xTxLock, this`xTasksWaitingToReceive, this`rest
      ensures Valid()
      ensures Enabled(old(View()), UnlockTxStep(woke)) && View() == Next(old(View()), UnlockTxStep(woke))
      ensures var k := Min(Max0(old(xTxLock)), |old(xTasksWaitingToReceive)|);
              && woke == Elements(old(xTasksWaitingToReceive)[..k])
              && xTasksWaitingToReceive == old(xTasksWaitingToReceive)[k..]
    {
      hide Wakes, Elements, NoRepeats;
      FrontWakes(xTasksWaitingToReceive, xTxLock);
      ghost var k := 0;
      var waiting, all := xTasksWaitingToReceive, Min(Max0(xTxLock), |xTasksWaitingToReceive|);
      NoRepeatsAfter(waiting, all);
      woke := Elements(waiting[..all]);
      var next := Next(View(), UnlockTxStep(woke));
      while xTxLock > 0
        invariant 0 <= k <= |waiting|
        invariant k <= Max0(old(xTxLock)) && xTxLock == old(xTxLock) - k
        invariant xTasksWaitingToReceive == waiting[k..]
      {
        if xTasksWaitingToReceive != [] {
          Behind(waiting, k);
          xTasksWaitingToReceive := xTasksWaitingToReceive[1..];
          xTxLock := xTxLock - 1;
          k := k + 1;
        } else {
          break;
        }
      }
      xTxLock := UNLOCKED;
      rest := next;
    }

    // The second critical section, and xTaskResumeAll: the step UnlockRxStep.
    method UnlockRxSection() returns (woke: set<Task>)
      requires Valid() && rest.region.Held? && rest.region.stage.UnlockRx?
      modifies this`xRxLock, this`xTasksWaitingToSend, this`rest
      ensures Valid()
      ensures Enabled(old(View()), UnlockRxStep(woke)) && View() == Next(old(View()), UnlockRxStep(woke))
      ensures var k := Min(Max0(old(xRxLock)), |old(xTasksWaitingToSend)|);
              && woke == Elements(old(xTasksWaitingToSend)[..k])
              && xTasksWaitingToSend == old(xTasksWaitingToSend)[k..]
    {
      hide Wakes, Elements, NoRepeats;
      FrontWakes(xTasksWaitingToSend, xRxLock);
      ghost var k := 0;
      var waiting, all := xTasksWaitingToSend, Min(Max0(xRxLock), |xTasksWaitingToSend|);
      NoRepeatsAfter(waiting, all);
      woke := Elements(waiting[..all]);
      var next := Next(View(), UnlockRxStep(woke));
      while xRxLock > 0
        invariant 0 <= k <= |waiting|
        invariant k <= Max0(old(xRxLock)) && xRxLock == old(xRxLock) - k
        invariant xTasksWaitingToSend == waiting[k..]
      {
        if xTasksWaitingToSend != [] {
          Behind(waiting, k);
          xTasksWaitingToSend := xTasksWaitingToSend[1..];
          xRxLock := xRxLock - 1;
          k := k + 1;
        } else {
          break;
        }
      }
      xRxLock := UNLOCKED;
      rest := next;
    }

    // vTaskPlaceOnEventList
    method PlaceOnEventList(t: Task, place: nat)
      requires Valid() && Enabled(View(), Place) && View().region.task == t
      requires t !in View().waitR && t !in View().waitS
      modifies this`rest, this`xTasksWaitingToSend, this`xTasksWaitingToReceive
      ensures Valid() && View() == Next(old(View()), Place)
    {
      hide NoRepeats, Elements;
      var next := Next(View(), Place);
      if rest.region.op == Send {
        var k := Min(place, |xTasksWaitingToSend|);
        Inserted(xTasksWaitingToSend, t, k);
        xTasksWaitingToSend := xTasksWaitingToSend[..k] + [t] + xTasksWaitingToSend[k..];
      } else {
        var k := Min(place, |xTasksWaitingToReceive|);
        Inserted(xTasksWaitingToReceive, t, k);
        xTasksWaitingToReceive := xTasksWaitingToReceive[..k] + [t] + xTasksWaitingToReceive[k..];
      }
      rest := next;
    }

    // Others run at a point of a call of task t.
    method Between(g: Gap, t: Task, ghost start: State, ghost before: seq<Label>, ghost k: Tally)
      returns (ghost ls: seq<Label>)
      requires Valid() && Trail(start, before, t) == At(View(), k)
      modifies this
      ensures Valid() && Trail(start, ls, t) == At(View(), k) && Stays(old(View()), View(), t)
      ensures g.steps == [] ==> ls == before && View() == old(View())
    {
      hide Trail, Stays, ByOthers;
      ghost var s := View();
      var more := Others(g, t);
      OthersStep(start, before, s, t, k, more);
      ls := before + more;
    }

    // prvUnlockQueue and xTaskResumeAll
    method UnlockQueue(t: Task, op: Op, retry: bool, turn: Turn, ghost start: State, ghost before: seq<Label>,
        ghost k: Tally)
      returns (ghost ls: seq<Label>, ghost woke: set<Task>, ghost also: set<Task>)
      requires Valid() && Trail(start, before, t) == At(View(), k) && op != Wait
      requires View().region == Held(t, op, UnlockTx(retry))
      modifies this
      ensures Valid() && Trail(start, ls, t) == At(View(), k)
      ensures View().region == Free && CallOf(View(), t) == if retry then AtTop(op, true) else Outside
      ensures turn.unlocking.steps == [] && turn.unlocked.steps == [] ==>
                ls == before + [UnlockTxStep(woke)] + [UnlockRxStep(also)]
    {
      hide Trail, Elements, NoRepeats, Wakes;
      ls := Between(turn.unlocking, t, start, before, k);
      ghost var s := View();
      woke := UnlockTxSection();
      QuietStep(start, ls, s, t, k, UnlockTxStep(woke), View());
      ls := Between(turn.unlocked, t, start, ls + [UnlockTxStep(woke)], k);
      s := View();
      also := UnlockRxSection();
      QuietStep(start, ls, s, t, k, UnlockRxStep(also), View());
      ls := ls + [UnlockRxStep(also)];
    }

    // The task tests the queue and goes on the event list if there is still nothing for it.
    method TestAndPlace(t: Task, op: Op, turn: Turn, ghost start: State, ghost before: seq<Label>)
      returns (ghost ls: seq<Label>)
      requires Valid() && Inv(start) && Trail(start, before, t) == At(View(), Tally(0, 0)) && op != Wait
      requires View().region == Held(t, op, Checked)
      modifies this
      ensures Valid() && Trail(start, ls, t) == At(View(), Tally(0, 0)) && View().region == Held(t, op, UnlockTx(true))
      ensures turn.placing.steps == [] && !Succeeds(old(View()), op) ==> ls == before + [TestQueue] + [Place]
    {
      hide Trail, Elements, NoRepeats, Inv, Wakes;
      ghost var k := Tally(0, 0);
      ghost var s := View();
      // prvIsQueueFull or prvIsQueueEmpty
      var nothingToDo := if op == Send then uxMessagesWaiting >= uxLength else uxMessagesWaiting == 0;
      rest := Next(View(), TestQueue);
      QuietStep(start, before, s, t, k, TestQueue, View());
      ls := before + [TestQueue];
      if nothingToDo {
        ls := Between(turn.placing, t, start, ls, k);
        s := View();
        TrailKeeps(start, ls, s, t, k);
        NotPlacedYet(s, t);
        PlaceOnEventList(t, turn.place);
        QuietStep(start, ls, s, t, k, Place, View());
        ls := ls + [Place];
      }
    }

    // vTaskSuspendAll and prvLockQueue, then xTaskCheckForTimeOut
    method LockAndCheck(t: Task, op: Op, turn: Turn, ghost start: State, ghost before: seq<Label>)
      returns (ghost ls: seq<Label>)
      requires Valid() && Trail(start, before, t) == At(View(), Tally(0, 0))
      requires View().region == Free && CallOf(View(), t) == Suspending(op) && op != Wait
      modifies this
      ensures Valid() && Trail(start, ls, t) == At(View(), if turn.expired then Tally(0, 1) else Tally(0, 0))
      ensures View().region == Held(t, op, if turn.expired then UnlockTx(false) else Checked)
      ensures turn.locked.steps == [] ==>
                && ls == before + [Lock(t)] + [CheckForTimeOut(turn.expired)]
                && Succeeds(View(), op) == Succeeds(old(View()), op)
    {
      hide Trail, Elements, NoRepeats, Next, Enabled, TallyOf, Plus;
      ghost var k := Tally(0, 0);
      ghost var s := View();
      LockIs(s, t, op);
      LockQueue(t, op);
      QuietStep(start, before, s, t, k, Lock(t), View());
      ls := Between(turn.locked, t, start, before + [Lock(t)], k);
      s := View();
      CheckIs(s, t, op, turn.expired);
      PlusNone(TallyOf(s, CheckForTimeOut(turn.expired), t));
      rest := Next(View(), CheckForTimeOut(turn.expired));
      Step(start, ls, s, t, k, CheckForTimeOut(turn.expired), View());
      ls := ls + [CheckForTimeOut(turn.expired)];
    }

    // From vTaskSuspendAll to xTaskResumeAll, which is alike in both functions but for the
    // list and the test.  The function goes back to the head of its loop if it is unfinished.
    method Block(t: Task, op: Op, turn: Turn, ghost start: State, ghost before: seq<Label>)
      returns (r: Outcome, ghost ls: seq<Label>, ghost woke: set<Task>, ghost also: set<Task>)
      requires Valid() && Inv(start) && Trail(start, before, t) == At(View(), Tally(0, 0))
      requires View().region == Free && CallOf(View(), t) == Suspending(op) && op != Wait
      modifies this
      ensures Valid() && Trail(start, ls, t) == At(View(), Worth(r, true)) && r != Passed
      ensures CallOf(View(), t) == if r == Unfinished then AtTop(op, true) else Outside
      ensures r == Failed <==> turn.expired
      ensures Silent(turn) && !turn.expired && !Succeeds(old(View()), op) ==> ls == BlockSteps(before, t, woke, also)
    {
      hide Trail, Elements, NoRepeats, Inv, Next, Enabled, Succeeds;
      ls := LockAndCheck(t, op, turn, start, before);
      r := if turn.expired then Failed else Unfinished;
      if r == Unfinished {
        ls := Between(turn.checked, t, start, ls, Tally(0, 0));
        ls := TestAndPlace(t, op, turn, start, ls);
      }
      ls, woke, also := UnlockQueue(t, op, r == Unfinished, turn, start, ls, Worth(r, true));
    }

    // A call begins.
    method Enter(t: Task, op: Op, block: bool) returns (ghost ls: seq<Label>)
      requires Valid() && Enabled(View(), CallOp(t, op, block)) && op != Wait
      modifies this`rest
      ensures Valid() && Trail(old(View()), ls, t) == At(View(), Tally(0, 0)) && CallOf(View(), t) == AtTop(op, block)
      ensures ls == [CallOp(t, op, block)] && After(old(View()), CallOp(t, op, block)) == Some(View())
    {
      hide Trail, Elements, NoRepeats;
      ghost var s := View();
      NothingYet(s, t);
      rest := Next(View(), CallOp(t, op, block));
      QuietStep(s, [], s, t, Tally(0, 0), CallOp(t, op, block), View());
      ls := [] + [CallOp(t, op, block)];
    }

    // An attempt, and what it means for the call: a task that may not block fails at once.
    method AttemptSend(t: Task, block: bool, ghost start: State, ghost before: seq<Label>)
      returns (r: Outcome, ghost ls: seq<Label>)
      requires Valid() && CanTry(View(), t, Send) && CallOf(View(), t).block == block
      requires Trail(start, before, t) == At(View(), Tally(0, 0))
      modifies this
      ensures Valid() && Trail(start, ls, t) == At(View(), Worth(r, false))
              && (r != Passed ==> block == (r == Unfinished))
      ensures View().region == Free && CallOf(View(), t) == if r == Unfinished then Suspending(Send) else Outside
      ensures r == Passed <==> Succeeds(old(View()), Send)
      ensures r == Unfinished ==> ls == before + [Attempt(t, {})] && !Succeeds(View(), Send)
    {
      hide Trail, Elements, NoRepeats, After, TallyOf, CanTry, Plus, Succeeds;
      ghost var s := View();
      TryFacts(s, t, Send);
      var passed, woke := TrySend(t);
      AttemptCounts(s, t, Send, woke);
      AttemptLeaves(s, t, Send, woke, View());
      Step(start, before, s, t, Tally(0, 0), Attempt(t, woke), View());
      ls := before + [Attempt(t, woke)];
      r := if passed then Passed else if block then Unfinished else Failed;
      PlusNone(TallyOf(s, Attempt(t, woke), t));
      assert Worth(r, false) == if passed then Tally(1, 0) else Tally(0, 0);
    }

    method AttemptReceive(t: Task, xJustPeeking: bool, block: bool, ghost start: State, ghost before: seq<Label>)
      returns (r: Outcome, ghost ls: seq<Label>)
      requires Valid() && CanTry(View(), t, Taking(xJustPeeking)) && CallOf(View(), t).block == block
      requires Trail(start, before, t) == At(View(), Tally(0, 0))
      modifies this
      ensures Valid() && Trail(start, ls, t) == At(View(), Worth(r, false))
              && (r != Passed ==> block == (r == Unfinished))
      ensures View().region == Free
      ensures CallOf(View(), t) == if r == Unfinished then Suspending(Taking(xJustPeeking)) else Outside
      ensures r == Passed <==> Succeeds(old(View()), Taking(xJustPeeking))
      ensures r == Unfinished ==> ls == before + [Attempt(t, {})] && !Succeeds(View(), Taking(xJustPeeking))
    {
      hide Trail, Elements, NoRepeats, After, TallyOf, CanTry, Plus, Succeeds;
      ghost var s := View();
      TryFacts(s, t, Taking(xJustPeeking));
      var passed, woke := TryReceive(t, xJustPeeking);
      AttemptCounts(s, t, Taking(xJustPeeking), woke);
      AttemptLeaves(s, t, Taking(xJustPeeking), woke, View());
      Step(start, before, s, t, Tally(0, 0), Attempt(t, woke), View());
      ls := before + [Attempt(t, woke)];
      r := if passed then Passed else if block then Unfinished else Failed;
      PlusNone(TallyOf(s, Attempt(t, woke), t));
      assert Worth(r, false) == if passed then Tally(1, 0) else Tally(0, 0);
    }

    // One turn of the loop of xQueueGenericSend, as far as the task gets.
    method SendTurn(t: Task, block: bool, turn: Turn, ghost start: State, ghost before: seq<Label>)
      returns (r: Outcome, ghost ls: seq<Label>, ghost woke: set<Task>, ghost also: set<Task>)
      requires Valid() && Inv(start) && Trail(start, before, t) == At(View(), Tally(0, 0))
      requires InCall(View(), t, Send, block)
      modifies this
      ensures Valid() && Trail(start, ls, t) == At(View(), Worth(r, block))
      ensures if r == Unfinished then InCall(View(), t, Send, block) else CallOf(View(), t) == Outside
      ensures block && Silent(turn) && !turn.expired && TriesInVain(old(View()), t, Send) ==>
                r == Unfinished && ls == BlockSteps(before + [Attempt(t, {})], t, woke, also)
      ensures Silent(turn) && IsAsleep(old(View()), t, Send) ==>
                r == Unfinished && View() == old(View())
    {
      hide Elements, NoRepeats, Inv, Trail, Next, Enabled, Succeeds;
      woke, also := {}, {};
      r := Unfinished;
      ls := Between(turn.top, t, start, before, Tally(0, 0));
      if CanTry(View(), t, Send) {
        r, ls := AttemptSend(t, block, start, ls);
      }
      if r == Unfinished && CallOf(View(), t) == Suspending(Send) {
        ls := Between(turn.suspending, t, start, ls, Tally(0, 0));
        if rest.region == Free {
          r, ls, woke, also := Block(t, Send, turn, start, ls);
        }
      }
    }

    // xQueueGenericSend.  block says whether its block time is not zero.
    method GenericSend(t: Task, block: bool, turns: seq<Turn>)
      returns (r: Outcome, ghost ls: seq<Label>)
      requires Valid() && Inv(View()) && Enabled(View(), CallOp(t, Send, block))
      modifies this
      ensures Valid() && Inv(View())
      ensures CanRun(old(View()), ls) && View() == Run(old(View()), ls)
      ensures Tallied(old(View()), ls, t) == Worth(r, block)
      ensures r == Unfinished <==> CallOf(View(), t) != Outside
      ensures block && Undisturbed(turns) && Quiet(old(View()), t, Send) ==>
                r == Unfinished && View() == Asleep(old(View()), t, Send)
    {
      hide Elements, NoRepeats, Inv, CanRun, Run, Tallied, Trail, Next, Enabled, Succeeds, Quiet, InCall, Asleep;
      ghost var start := View();
      ghost var drowsy := block && Undisturbed(turns) && Quiet(start, t, Send);
      ls := Enter(t, Send, block);
      Entered(start, t, Send, block, View());
      r := Unfinished;
      var i := 0;
      while i < |turns| && r == Unfinished
        invariant 0 <= i <= |turns| && Valid() && Trail(start, ls, t) == At(View(), Worth(r, block))
        invariant r == Unfinished ==> InCall(View(), t, Send, block)
        invariant r != Unfinished ==> CallOf(View(), t) == Outside
        invariant drowsy && i == 0 ==> ls == [CallOp(t, Send, true)] && TriesInVain(View(), t, Send)
        invariant drowsy && i > 0 ==> r == Unfinished && View() == Asleep(start, t, Send)
      {
        ghost var woke, also;
        if drowsy && i > 0 { SleepsOn(start, t, Send); }
        r, ls, woke, also := SendTurn(t, block, turns[i], start, ls);
        if drowsy && i == 0 { FallenAsleep(start, ls, View(), t, Send, woke, also); }
        i := i + 1;
      }
      InCallOrNot(View(), t, Send, block);
      TrailKeeps(start, ls, View(), t, Worth(r, block));
      TrailIs(start, ls, View(), t, Worth(r, block));
    }

    // One turn of the loop of xQueueGenericReceive, as far as the task gets.
    method ReceiveTurn(t: Task, xJustPeeking: bool, block: bool, turn: Turn, ghost start: State,
        ghost before: seq<Label>)
      returns (r: Outcome, ghost ls: seq<Label>, ghost woke: set<Task>, ghost also: set<Task>)
      requires Valid() && Inv(start) && Trail(start, before, t) == At(View(), Tally(0, 0))
      requires InCall(View(), t, Taking(xJustPeeking), block)
      modifies this
      ensures Valid() && Trail(start, ls, t) == At(View(), Worth(r, block))
      ensures if r == Unfinished then InCall(View(), t, Taking(xJustPeeking), block) else CallOf(View(), t) == Outside
      ensures block && Silent(turn) && !turn.expired && TriesInVain(old(View()), t, Taking(xJustPeeking)) ==>
                r == Unfinished && ls == BlockSteps(before + [Attempt(t, {})], t, woke, also)
      ensures Silent(turn) && IsAsleep(old(View()), t, Taking(xJustPeeking)) ==>
                r == Unfinished && View() == old(View())
    {
      hide Elements, NoRepeats, Inv, Trail, Next, Enabled, Succeeds;
      woke, also := {}, {};
      r := Unfinished;
      ls := Between(turn.top, t, start, before, Tally(0, 0));
      if CanTry(View(), t, Taking(xJustPeeking)) {
        r, ls := AttemptReceive(t, xJustPeeking, block, start, ls);
      }
      if r == Unfinished && CallOf(View(), t) == Suspending(Taking(xJustPeeking)) {
        ls := Between(turn.suspending, t, start, ls, Tally(0, 0));
        if rest.region == Free {
          r, ls, woke, also := Block(t, Taking(xJustPeeking), turn, start, ls);
        }
      }
    }

    // xQueueGenericReceive.  block says whether its block time is not zero.
    method GenericReceive(t: Task, xJustPeeking: bool, block: bool, turns: seq<Turn>)
      returns (r: Outcome, ghost ls: seq<Label>)
      requires Valid() && Inv(View()) && Enabled(View(), CallOp(t, Taking(xJustPeeking), block))
      modifies this
      ensures Valid() && Inv(View())
      ensures CanRun(old(View()), ls) && View() == Run(old(View()), ls)
      ensures Tallied(old(View()), ls, t) == Worth(r, block)
      ensures r == Unfinished <==> CallOf(View(), t) != Outside
      ensures block && Undisturbed(turns) && Quiet(old(View()), t, Taking(xJustPeeking)) ==>
                r == Unfinished && View() == Asleep(old(View()), t, Taking(xJustPeeking))
    {
      hide Elements, NoRepeats, Inv, CanRun, Run, Tallied, Trail, Next, Enabled, Succeeds, Quiet, InCall, Asleep;
      ghost var start := View();
      ghost var drowsy := block && Undisturbed(turns) && Quiet(start, t, Taking(xJustPeeking));
      ls := Enter(t, Taking(xJustPeeking), block);
      Entered(start, t, Taking(xJustPeeking), block, View());
      r := Unfinished;
      var i := 0;
      while i < |turns| && r == Unfinished
        invariant 0 <= i <= |turns| && Valid() && Trail(start, ls, t) == At(View(), Worth(r, block))
        invariant r == Unfinished ==> InCall(View(), t, Taking(xJustPeeking), block)
        invariant r != Unfinished ==> CallOf(View(), t) == Outside
        invariant drowsy && i == 0 ==>
                    ls == [CallOp(t, Taking(xJustPeeking), true)] && TriesInVain(View(), t, Taking(xJustPeeking))
        invariant drowsy && i > 0 ==> r == Unfinished && View() == Asleep(start, t, Taking(xJustPeeking))
      {
        ghost var woke, also;
        if drowsy && i > 0 { SleepsOn(start, t, Taking(xJustPeeking)); }
        r, ls, woke, also := ReceiveTurn(t, xJustPeeking, block, turns[i], start, ls);
        if drowsy && i == 0 { FallenAsleep(start, ls, View(), t, Taking(xJustPeeking), woke, also); }
        i := i + 1;
      }
      InCallOrNot(View(), t, Taking(xJustPeeking), block);
      TrailKeeps(start, ls, View(), t, Worth(r, block));
      TrailIs(start, ls, View(), t, Worth(r, block));
    }

    // xQueueGenericReset, its effect on the lock counts and event lists.
    method Reset(xNewQueue: bool) returns (woke: set<Task>)
      requires Valid()
      modifies this
      ensures Valid()
      ensures !xNewQueue ==>
                && Wakes(woke, old(View()).waitS, 1) && View() == ResetOf(old(View()), woke)
                && (old(xTasksWaitingToSend) != [] ==> woke == {old(xTasksWaitingToSend)[0]})
      ensures xNewQueue ==>
                && View().waitS == {} && View().waitR == {} && View().messages == 0
                && View().txLock == UNLOCKED && View().rxLock == UNLOCKED
    {
      hide NoRepeats, Elements, ResetOf;
      var before, waiting := View(), xTasksWaitingToSend;
      uxMessagesWaiting := 0;
      xRxLock, xTxLock := UNLOCKED, UNLOCKED;
      woke := {};
      if !xNewQueue {
        FrontWakes(waiting, 1);
        woke := Elements(waiting[..Min(1, |waiting|)]);
        NoRepeatsAfter(waiting, Min(1, |waiting|));
        if xTasksWaitingToSend != [] {
          FirstAlone(waiting);
          xTasksWaitingToSend := xTasksWaitingToSend[1..];
        }
        rest := ResetOf(before, woke);
        ResetKeepsReceivers(before, woke);
      } else {
        NothingIn();
        xTasksWaitingToSend, xTasksWaitingToReceive := [], [];
      }
    }
  }

  lemma FirstAlone(ts: seq<Task>)
    requires ts != []
    ensures Elements(ts[..1]) == {ts[0]} && ts[1..] == ts[Min(1, |ts|)..] && ts[..Min(1, |ts|)] == ts[..1]
  {
    assert ts[..1] == [ts[0]];
  }

  lemma NothingIn()
    ensures Elements([]) == {} && NoRepeats([])
  {
  }

  lemma ResetKeepsReceivers(s: State, woke: set<Task>)
    ensures var r := ResetOf(s, woke);
            r == r.(messages := 0, length := s.length, txLock := UNLOCKED, rxLock := UNLOCKED,
                    waitR := s.waitR, waitS := s.waitS - woke)
  {
  }

  lemma NoRepeatsAfter(ts: seq<Task>, k: nat)
    requires NoRepeats(ts) && k <= |ts|
    ensures NoRepeats(ts[k..])
  {
  }

  lemma Behind(ts: seq<Task>, k: nat)
    requires k < |ts|
    ensures ts[k..] != [] && ts[k..][1..] == ts[k + 1..]
  {
  }
}
