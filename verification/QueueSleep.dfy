// How a task goes to sleep on a queue, and what ends its sleep.
module QueueSleep {
  import opened QueueLocking

  // ---- from the event list to the next attempt ----

  // The task is on the event list of its operation, or was taken off it by an event and has
  // yet to run.
  predicate WaitsFor(s: State, t: Task, op: Op) { t in if op == Send then s.waitS else s.waitR }

  predicate Listed(s: State, t: Task, op: Op) {
    t in if op == Send then s.waitS + s.wokenS else s.waitR + s.wokenR
  }

  // The steps by which a listed task itself goes on: it tries again, or its block time ends.
  predicate GoesOn(l: Label, t: Task) { l == TimedOut(t) || (l.Attempt? && l.t == t) }

  lemma PlaceLists(s: State)
    requires Enabled(s, Place)
    ensures WaitsFor(Next(s, Place), s.region.task, s.region.op)
  {
  }

  lemma StepKeepsListed(s: State, l: Label, t: Task, op: Op)
    requires Enabled(s, l) && Listed(s, t, op) && !GoesOn(l, t)
    ensures Listed(Next(s, l), t, op)
  {
  }

  // From its placing on a task stays listed, whatever others do, until it goes on itself.
  lemma {:induction false} StaysListed(s: State, ls: seq<Label>, t: Task, op: Op)
    requires CanRun(s, ls) && Listed(s, t, op)
    requires forall i :: 0 <= i < |ls| ==> !GoesOn(ls[i], t)
    ensures Listed(Run(s, ls), t, op)
    decreases |ls|
  {
    hide Enabled, Next, Listed, GoesOn;
    if ls != [] {
      StepKeepsListed(s, ls[0], t, op);
      StaysListed(Next(s, ls[0]), ls[1..], t, op);
    }
  }

  lemma PlacedStaysListed(s: State, ls: seq<Label>)
    requires Enabled(s, Place) && CanRun(Next(s, Place), ls)
    requires forall i :: 0 <= i < |ls| ==> !GoesOn(ls[i], s.region.task)
    ensures Listed(Run(Next(s, Place), ls), s.region.task, s.region.op)
  {
    hide CanRun, Run, GoesOn;
    PlaceLists(s);
    StaysListed(Next(s, Place), ls, s.region.task, s.region.op);
  }

  // The step takes the task off an event list.
  predicate Ends(l: Label, t: Task) {
    || l == TimedOut(t)
    || ((l.Attempt? || l.UnlockTxStep? || l.UnlockRxStep? || l.IsrSend? || l.IsrReceive?) && t in l.woke)
  }

  // A waiting task makes no attempt.
  lemma AsleepDoesNotTry(s: State, t: Task, op: Op, woke: set<Task>)
    requires WaitsFor(s, t, op)
    ensures !Enabled(s, Attempt(t, woke))
  {
  }

  lemma StepKeepsAsleep(s: State, l: Label, t: Task, op: Op)
    requires Enabled(s, l) && WaitsFor(s, t, op) && !Ends(l, t)
    ensures WaitsFor(Next(s, l), t, op)
  {
  }

  // So it sleeps until an event takes it off the list or its block time is over.
  lemma {:induction false} SleepsUntil(s: State, ls: seq<Label>, t: Task, op: Op, woke: set<Task>)
    requires CanRun(s, ls) && WaitsFor(s, t, op) && Enabled(Run(s, ls), Attempt(t, woke))
    ensures exists i :: 0 <= i < |ls| && Ends(ls[i], t)
    decreases |ls|
  {
    hide Enabled, Next, WaitsFor, Ends;
    if ls == [] {
      AsleepDoesNotTry(s, t, op, woke);
    } else if Ends(ls[0], t) {
    } else {
      StepKeepsAsleep(s, ls[0], t, op);
      SleepsUntil(Next(s, ls[0]), ls[1..], t, op, woke);
      var i :| 0 <= i < |ls[1..]| && Ends(ls[1..][i], t);
      assert ls[i + 1] == ls[1..][i];
    }
  }

  // A time-out takes the task off every list, and it can then try again as soon as it runs.
  lemma TimeOutFrees(s: State, t: Task)
    requires Enabled(s, TimedOut(t))
    ensures var r := Next(s, TimedOut(t));
            && t !in r.waitR && t !in r.waitS && r.messages == s.messages && r.calls == s.calls
            && (CallOf(r, t).AtTop? && CallOf(r, t).op != Wait && !Succeeds(r, CallOf(r, t).op) ==>
                  Enabled(r, Attempt(t, {})))
  {
  }

  // ---- messages ----

  // What a step does to the number of messages: a successful send adds one, a successful
  // receive takes one, a peek none.
  function Balance(s: State, l: Label): int {
    match l
    case Attempt(t, _) =>
      if !CallOf(s, t).AtTop? || !Succeeds(s, CallOf(s, t).op) then 0
      else if CallOf(s, t).op == Send then 1 else if CallOf(s, t).op == Receive then -1 else 0
    case IsrSend(_) => if s.messages < s.length then 1 else 0
    case IsrReceive(_) => if s.messages > 0 then -1 else 0
    case _ => 0
  }

  function Balances(s: State, ls: seq<Label>): int
    requires CanRun(s, ls)
    decreases |ls|
  {
    if ls == [] then 0 else Balance(s, ls[0]) + Balances(Next(s, ls[0]), ls[1..])
  }

  lemma StepBalances(s: State, l: Label)
    requires Enabled(s, l)
    ensures Next(s, l).messages == s.messages + Balance(s, l)
  {
    hide Wakes;
  }

  // No message is made or lost otherwise, in any interleaving.
  lemma {:induction false} MessagesAreConserved(s: State, ls: seq<Label>)
    requires CanRun(s, ls)
    ensures Run(s, ls).messages == s.messages + Balances(s, ls)
    decreases |ls|
  {
    hide Enabled, Next, Balance;
    if ls != [] {
      StepBalances(s, ls[0]);
      MessagesAreConserved(Next(s, ls[0]), ls[1..]);
    }
  }

  // ---- going to sleep ----

  // The queue is not locked and has nothing for the operation, and the task is in no list
  // and in no call.
  predicate Quiet(s: State, t: Task, op: Op) {
    && s.region == Free && s.txLock == UNLOCKED && s.rxLock == UNLOCKED
    && op != Wait && !Succeeds(s, op) && CallOf(s, t) == Outside
    && t !in s.waitR + s.wokenR && t !in s.waitS + s.wokenS
  }

  // What a task does then until it sleeps, if others do nothing.
  function SleepRun(t: Task, op: Op): seq<Label> {
    [CallOp(t, op, true), Attempt(t, {}), Lock(t), CheckForTimeOut(false)]
    + [TestQueue, Place, UnlockTxStep({}), UnlockRxStep({})]
  }

  // The task is back at the head of its loop, and waits.
  function Asleep(s: State, t: Task, op: Op): State {
    var s1 := Goes(s, t, AtTop(op, true));
    if op == Send then s1.(waitS := s.waitS + {t}) else s1.(waitR := s.waitR + {t})
  }

  // The task has tried, and has the scheduler suspended.
  function Holding(s: State, t: Task, op: Op, stage: Stage): State {
    Goes(s, t, Inside).(region := Held(t, op, stage), txLock := 0, rxLock := 0)
  }

  function Placed(s: State, t: Task, op: Op): State {
    if op == Send then s.(waitS := s.waitS + {t}) else s.(waitR := s.waitR + {t})
  }

  lemma GoesTwice(s: State, t: Task, c: Call, d: Call)
    ensures Goes(Goes(s, t, c), t, d) == Goes(s, t, d) && CallOf(Goes(s, t, c), t) == c
  {
    assert s.calls[t := c][t := d] == s.calls[t := d];
  }

  lemma AttemptFails(s: State, t: Task, op: Op)
    requires Quiet(s, t, op)
    ensures var s1 := Goes(s, t, AtTop(op, true));
            Enabled(s1, Attempt(t, {})) && Next(s1, Attempt(t, {})) == Goes(s, t, Suspending(op))
  {
    GoesTwice(s, t, AtTop(op, true), Suspending(op));
    assert s.wokenS - {t} == s.wokenS && s.wokenR - {t} == s.wokenR;
  }

  lemma TriesAndLocks(s: State, t: Task, op: Op)
    requires Quiet(s, t, op)
    ensures var ls := [CallOp(t, op, true), Attempt(t, {}), Lock(t), CheckForTimeOut(false)];
            CanRun(s, ls) && Run(s, ls) == Holding(s, t, op, Checked)
  {
    hide CanRun, Run, Full, Goes, Succeeds;
    AttemptFails(s, t, op);
    GoesTwice(s, t, Suspending(op), Inside);
    GoesOnly(s, t, Inside);
    var s2 := Goes(s, t, Suspending(op));
    assert s2.region == Free && s2.txLock == UNLOCKED && s2.rxLock == UNLOCKED by { GoesOnly(s, t, Suspending(op)); }
    assert Next(s2, Lock(t)) == Holding(s, t, op, Locked);
    FourSteps(s, CallOp(t, op, true), Attempt(t, {}), Lock(t), CheckForTimeOut(false));
  }

  lemma Places(s: State, t: Task, op: Op)
    requires Quiet(s, t, op)
    ensures var r := Holding(s, t, op, Checked);
            && Enabled(r, TestQueue) && Next(r, TestQueue) == Holding(s, t, op, Placing)
            && Enabled(Holding(s, t, op, Placing), Place)
            && Next(Holding(s, t, op, Placing), Place) == Holding(Placed(s, t, op), t, op, UnlockTx(true))
  {
  }

  lemma Unlocks(s: State, t: Task, op: Op)
    requires op != Wait && s.txLock == UNLOCKED && s.rxLock == UNLOCKED && s.region == Free
    ensures var r := Holding(s, t, op, UnlockTx(true));
            var u := Holding(s, t, op, UnlockRx(true)).(txLock := UNLOCKED);
            && Enabled(r, UnlockTxStep({})) && Next(r, UnlockTxStep({})) == u
            && Enabled(u, UnlockRxStep({})) && Next(u, UnlockRxStep({})) == Goes(s, t, AtTop(op, true))
            && (forall w :: Enabled(r, UnlockTxStep(w)) ==> w == {})
            && (forall w :: Enabled(u, UnlockRxStep(w)) ==> w == {})
  {
    GoesTwice(s, t, Inside, AtTop(op, true));
  }

  lemma PlacesAndUnlocks(s: State, t: Task, op: Op)
    requires Quiet(s, t, op)
    ensures var ls := [TestQueue, Place, UnlockTxStep({}), UnlockRxStep({})];
            var r := Holding(s, t, op, Checked);
            CanRun(r, ls) && Run(r, ls) == Asleep(s, t, op)
  {
    hide CanRun, Run, Enabled, Next, Holding;
    Places(s, t, op);
    Unlocks(Placed(s, t, op), t, op);
    FourSteps(Holding(s, t, op, Checked), TestQueue, Place, UnlockTxStep({}), UnlockRxStep({}));
  }

  lemma FourSteps(s: State, a: Label, b: Label, c: Label, d: Label)
    requires Enabled(s, a) && Enabled(Next(s, a), b) && Enabled(Next(Next(s, a), b), c)
    requires Enabled(Next(Next(Next(s, a), b), c), d)
    ensures CanRun(s, [a, b, c, d])
    ensures Run(s, [a, b, c, d]) == Next(Next(Next(Next(s, a), b), c), d)
  {
    hide Enabled, Next;
    var s1 := Next(s, a);
    var s2 := Next(s1, b);
    var s3 := Next(s2, c);
    assert [a, b, c, d][1..] == [b, c, d] && [b, c, d][1..] == [c, d] && [c, d][1..] == [d];
    RunOne(s3, d);
    assert CanRun(s2, [c, d]) && Run(s2, [c, d]) == Next(s3, d);
    assert CanRun(s1, [b, c, d]) && Run(s1, [b, c, d]) == Next(s3, d);
  }

  lemma FallsAsleep(s: State, t: Task, op: Op)
    requires Quiet(s, t, op)
    ensures CanRun(s, SleepRun(t, op)) && Run(s, SleepRun(t, op)) == Asleep(s, t, op)
    ensures WaitsFor(Asleep(s, t, op), t, op)
  {
    hide CanRun, Run, Quiet, Holding;
    TriesAndLocks(s, t, op);
    PlacesAndUnlocks(s, t, op);
    RunOn(s, [CallOp(t, op, true), Attempt(t, {}), Lock(t), CheckForTimeOut(false)],
          [TestQueue, Place, UnlockTxStep({}), UnlockRxStep({})]);
  }

  // ---- two runs from a new queue ----

  // A new queue of two items, and the same queue full.
  const NEW: State := State(0, 2, UNLOCKED, UNLOCKED, Free, map[], {}, {}, {}, {})
  const FULL: State := NEW.(messages := 2)

  // A task receives and sleeps, an interrupt sends and wakes it, and it goes on and receives.
  function SleepAndWake(): seq<Label> { SleepRun(0, Receive) + [IsrSend({0}), Attempt(0, {})] }

  lemma Woken()
    ensures var s := Asleep(NEW, 0, Receive);
            && Enabled(s, IsrSend({0}))
            && (forall w :: Enabled(s, IsrSend(w)) ==> w == {0})
            && Next(s, IsrSend({0})).wokenR == {0} && Next(s, IsrSend({0})).waitR == {}
            && Enabled(Next(s, IsrSend({0})), Attempt(0, {}))
            && Next(Next(s, IsrSend({0})), Attempt(0, {})) == NEW.(calls := map[0 := Outside])
  {
    var s := Asleep(NEW, 0, Receive);
    assert s.waitR == {0} && |{0 as Task}| == 1;
    forall w | Enabled(s, IsrSend(w)) ensures w == {0} {
      assert w == {} || w == {0};
    }
    var r := Next(s, IsrSend({0}));
    assert r.wokenR == {0} && r.waitR == {};
    assert r.wokenR - {0} == {};
    assert r.calls[0 := Outside] == map[0 := Outside];
  }

  lemma ReceiverSleepsAndWakes()
    ensures Initial(NEW) && CanRun(NEW, SleepRun(0, Receive)) && CanRun(NEW, SleepAndWake())
    ensures Run(NEW, SleepRun(0, Receive)).waitR == {0}
    ensures Run(NEW, SleepAndWake()) == NEW.(calls := map[0 := Outside])
  {
    hide CanRun, Run, SleepRun, Enabled, Next;
    FallsAsleep(NEW, 0, Receive);
    Woken();
    var s := Asleep(NEW, 0, Receive);
    RunOne(s, IsrSend({0}));
    RunOne(Next(s, IsrSend({0})), Attempt(0, {}));
    RunOn(s, [IsrSend({0})], [Attempt(0, {})]);
    assert [IsrSend({0})] + [Attempt(0, {})] == [IsrSend({0}), Attempt(0, {})];
    RunOn(NEW, SleepRun(0, Receive), [IsrSend({0}), Attempt(0, {})]);
  }

  // Interrupts fill the queue, and two tasks that send go to sleep.
  function FillAndSleep(): seq<Label> { [IsrSend({}), IsrSend({})] + (SleepRun(0, Send) + SleepRun(1, Send)) }

  lemma Fills()
    ensures CanRun(NEW, [IsrSend({}), IsrSend({})]) && Run(NEW, [IsrSend({}), IsrSend({})]) == FULL
  {
    hide CanRun, Run;
    RunOne(NEW, IsrSend({}));
    RunOne(NEW.(messages := 1), IsrSend({}));
    RunOn(NEW, [IsrSend({})], [IsrSend({})]);
    assert [IsrSend({})] + [IsrSend({})] == [IsrSend({}), IsrSend({})];
  }

  lemma BothSleep()
    ensures CanRun(FULL, SleepRun(0, Send) + SleepRun(1, Send))
    ensures Run(FULL, SleepRun(0, Send) + SleepRun(1, Send)) == Asleep(Asleep(FULL, 0, Send), 1, Send)
  {
    hide CanRun, Run, SleepRun;
    FallsAsleep(FULL, 0, Send);
    FallsAsleep(Asleep(FULL, 0, Send), 1, Send);
    RunOn(FULL, SleepRun(0, Send), SleepRun(1, Send));
  }

  // When the queue is then reset it is empty, one of the two tasks runs, and the other one
  // goes on waiting.
  lemma ResetStrandsASender()
    ensures Initial(NEW) && CanRun(NEW, FillAndSleep())
    ensures var s := Run(NEW, FillAndSleep());
            && s.region == Free && s.waitS == {0, 1} && s.messages == s.length == 2
            && Wakes({0}, s.waitS, 1) && !SendersCovered(ResetOf(s, {0}))
  {
    hide CanRun, Run, SleepRun, SendersCovered, ResetOf;
    Fills();
    BothSleep();
    RunOn(NEW, [IsrSend({}), IsrSend({})], SleepRun(0, Send) + SleepRun(1, Send));
    var s := Run(NEW, FillAndSleep());
    NoLostWakeUp(NEW, FillAndSleep());
    assert s == Asleep(Asleep(FULL, 0, Send), 1, Send);
    assert s.waitS == {0, 1} && |{0 as Task, 1}| == 2;
    ResetCovers(s, {0});
  }

  // ---- the steps of a call that goes to sleep, one by one ----

  // From locking to unlocking; the sets of tasks woken while unlocking are left open.
  function BlockSteps(before: seq<Label>, t: Task, woke: set<Task>, also: set<Task>): seq<Label> {
    before + [Lock(t)] + [CheckForTimeOut(false)] + [TestQueue] + [Place] + [UnlockTxStep(woke)] + [UnlockRxStep(also)]
  }

  function SleepSteps(t: Task, op: Op, woke: set<Task>, also: set<Task>): seq<Label> {
    BlockSteps([CallOp(t, op, true)] + [Attempt(t, {})], t, woke, also)
  }

  // They are empty.
  lemma NobodyElseWoken(s: State, t: Task, op: Op, woke: set<Task>, also: set<Task>)
    requires Quiet(s, t, op) && CanRun(s, SleepSteps(t, op, woke, also))
    ensures woke == {} && also == {} && Run(s, SleepSteps(t, op, woke, also)) == Asleep(s, t, op)
  {
    hide CanRun, Run, Enabled, Next, Holding, Quiet;
    var first := [CallOp(t, op, true), Attempt(t, {}), Lock(t), CheckForTimeOut(false)];
    TriesAndLocks(s, t, op);
    QuietFacts(s, t, op);
    Places(s, t, op);
    Unlocks(Placed(s, t, op), t, op);
    var r := Holding(Placed(s, t, op), t, op, UnlockTx(true));
    RunOne(Holding(s, t, op, Checked), TestQueue);
    RunOne(Holding(s, t, op, Placing), Place);
    RunOn(s, first, [TestQueue]);
    RunOn(s, first + [TestQueue], [Place]);
    var six := [CallOp(t, op, true)] + [Attempt(t, {})] + [Lock(t)] + [CheckForTimeOut(false)] + [TestQueue] + [Place];
    assert six == first + [TestQueue] + [Place];
    RunOn(s, six + [UnlockTxStep(woke)], [UnlockRxStep(also)]);
    RunOn(s, six, [UnlockTxStep(woke)]);
    RunOne(r, UnlockTxStep(woke));
    RunOne(Next(r, UnlockTxStep(woke)), UnlockRxStep(also));
    AsleepIs(s, t, op);
  }

  lemma QuietFacts(s: State, t: Task, op: Op)
    requires Quiet(s, t, op)
    ensures s.region == Free && s.txLock == UNLOCKED && s.rxLock == UNLOCKED && op != Wait
    ensures Placed(s, t, op).(waitR := s.waitR, waitS := s.waitS) == s
  {
  }

  lemma AsleepIs(s: State, t: Task, op: Op)
    ensures Asleep(s, t, op) == Goes(Placed(s, t, op), t, AtTop(op, true))
  {
  }
}
