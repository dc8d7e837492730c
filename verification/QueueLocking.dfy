// Blocking on a queue (utilities/FreeRTOSV7.3.0/queue.c): tasks that lock the queue, test
// it, go to sleep on an event list and unlock it again, while interrupts send and receive
// at any moment.  Each step below is one critical section of the source; the steps of all
// tasks and of the interrupts interleave freely, except that no other task runs while one
// has suspended the scheduler.
module QueueLocking {

  type Task = nat

  const UNLOCKED: int := -1

  // Wait is vQueueWaitForMessageRestricted, which the timer task blocks with.
  datatype Op = Send | Receive | Peek | Wait

  // Where a task is in its call, as far as it does not hold the scheduler.
  datatype Call =
    | Outside
    | AtTop(op: Op, block: bool)   // at the head of the for( ;; ) loop
    | Suspending(op: Op)           // did not succeed, about to suspend the scheduler
    | Inside                       // has the scheduler suspended

  // Where the task that has suspended the scheduler is.  retry tells whether it goes back
  // to the head of its loop or returns with a failure.
  datatype Stage = Locked | Checked | Placing | UnlockTx(retry: bool) | UnlockRx(retry: bool)

  datatype Region = Free | Held(task: Task, op: Op, stage: Stage)

  // waitR and waitS are xTasksWaitingToReceive and xTasksWaitingToSend; wokenR and wokenS
  // the tasks that an event took off them and that have not run since.
  datatype State = State(
    messages: nat,
    length: nat,
    txLock: int,
    rxLock: int,
    region: Region,
    calls: map<Task, Call>,
    waitR: set<Task>,
    waitS: set<Task>,
    wokenR: set<Task>,
    wokenS: set<Task>)

  function CallOf(s: State, t: Task): Call {
    if t in s.calls then s.calls[t] else Outside
  }

  function Goes(s: State, t: Task, c: Call): State { s.(calls := s.calls[t := c]) }

  function Max0(x: int): nat { if x > 0 then x else 0 }

  function Min(x: int, y: int): int { if x < y then x else y }

  // The label says which task steps and resolves what the model leaves open: which
  // waiting tasks have the highest priority, and whether a time-out has expired.
  datatype Label =
    | CallOp(t: Task, op: Op, block: bool)
    | Attempt(t: Task, woke: set<Task>)
    | Lock(t: Task)
    | CheckForTimeOut(expired: bool)
    | TestQueue
    | Place
    | UnlockTxStep(woke: set<Task>)
    | UnlockRxStep(woke: set<Task>)
    | TimedOut(t: Task)
    | IsrSend(woke: set<Task>)
    | IsrReceive(woke: set<Task>)

  // xTaskRemoveFromEventList called for up to count tasks of a list.
  predicate Wakes(woke: set<Task>, waiting: set<Task>, count: int) {
    woke <= waiting && |woke| == Min(Max0(count), |waiting|)
  }

  function WakeR(s: State, woke: set<Task>): State {
    s.(waitR := s.waitR - woke, wokenR := s.wokenR + woke)
  }

  function WakeS(s: State, woke: set<Task>): State {
    s.(waitS := s.waitS - woke, wokenS := s.wokenS + woke)
  }

  predicate Full(s: State) { s.messages >= s.length }

  // Does the attempt of operation op succeed?
  predicate Succeeds(s: State, op: Op) {
    if op == Send then !Full(s) else s.messages > 0
  }

  predicate Enabled(s: State, l: Label) {
    match l
    case CallOp(t, op, block) => s.region == Free && CallOf(s, t) == Outside
    case Attempt(t, woke) =>
      && s.region == Free
      && CallOf(s, t).AtTop? && CallOf(s, t).op != Wait
      && t !in s.waitR + s.waitS
      && var op := CallOf(s, t).op;
         Wakes(woke, if op == Receive then s.waitS else s.waitR, if Succeeds(s, op) then 1 else 0)
    case Lock(t) => s.region == Free && CallOf(s, t).Suspending?
    case CheckForTimeOut(expired) => s.region.Held? && s.region.stage == Locked && (s.region.op == Wait ==> !expired)
    case TestQueue => s.region.Held? && s.region.stage == Checked
    case Place => s.region.Held? && s.region.stage == Placing
    case UnlockTxStep(woke) => s.region.Held? && s.region.stage.UnlockTx? && Wakes(woke, s.waitR, s.txLock)
    case UnlockRxStep(woke) => s.region.Held? && s.region.stage.UnlockRx? && Wakes(woke, s.waitS, s.rxLock)
    case TimedOut(t) => s.region == Free && t in s.waitR + s.waitS
    case IsrSend(woke) =>
      Wakes(woke, s.waitR, if !Full(s) && s.txLock == UNLOCKED then 1 else 0)
    case IsrReceive(woke) =>
      Wakes(woke, s.waitS, if s.messages > 0 && s.rxLock == UNLOCKED then 1 else 0)
  }

  function Next(s: State, l: Label): State
    requires Enabled(s, l)
  {
    match l
    case CallOp(t, op, block) =>
      if op == Wait then EnterLocked(s, t, op) else Goes(s, t, AtTop(op, block))
    case Attempt(t, woke) => AttemptOp(s, t, CallOf(s, t).op, CallOf(s, t).block, woke)
    case Lock(t) => EnterLocked(s, t, CallOf(s, t).op)
    case CheckForTimeOut(expired) =>
      s.(region := s.region.(stage := if expired then UnlockTx(false) else Checked))
    case TestQueue =>
      // A queue that is neither empty nor full any more is tried again; Wait just returns.
      s.(region := s.region.(stage := if !Succeeds(s, s.region.op) then Placing else UnlockTx(s.region.op != Wait)))
    case Place =>
      var t := s.region.task;
      var s1 := if s.region.op == Send then s.(waitS := s.waitS + {t}) else s.(waitR := s.waitR + {t});
      s1.(region := s.region.(stage := UnlockTx(true)))
    case UnlockTxStep(woke) =>
      WakeR(s, woke).(txLock := UNLOCKED, region := s.region.(stage := UnlockRx(s.region.stage.retry)))
    case UnlockRxStep(woke) =>
      Leave(WakeS(s, woke).(rxLock := UNLOCKED, region := Free), s.region.task, s.region.op, s.region.stage.retry)
    case TimedOut(t) => s.(waitR := s.waitR - {t}, waitS := s.waitS - {t})
    case IsrSend(woke) =>
      if Full(s) then s
      else if s.txLock == UNLOCKED then WakeR(s, woke).(messages := s.messages + 1)
      else s.(messages := s.messages + 1, txLock := s.txLock + 1)
    case IsrReceive(woke) =>
      if s.messages == 0 then s
      else if s.rxLock == UNLOCKED then WakeS(s, woke).(messages := s.messages - 1)
      else s.(messages := s.messages - 1, rxLock := s.rxLock + 1)
  }

  // The first critical section of xQueueGenericSend and xQueueGenericReceive.
  function AttemptOp(s: State, t: Task, op: Op, block: bool, woke: set<Task>): State {
    if Succeeds(s, op) then
      var s1 := Ran(s, t, op, Outside);
      match op
      case Send => WakeR(s1, woke).(messages := s.messages + 1)
      case Receive => WakeS(s1, woke).(messages := s.messages - 1)
      case _ => WakeR(s1, woke)
    else Ran(s, t, op, if block then Suspending(op) else Outside)
  }

  // The task after its attempt, before anybody else is woken: it is no longer among the
  // woken tasks that have yet to run.
  function Ran(s: State, t: Task, op: Op, c: Call): State {
    Goes(if op == Send then s.(wokenS := s.wokenS - {t}) else s.(wokenR := s.wokenR - {t}), t, c)
  }

  // vTaskSuspendAll and prvLockQueue
  function EnterLocked(s: State, t: Task, op: Op): State {
    Goes(s, t, Inside).(
      region := Held(t, op, Locked),
      txLock := if s.txLock == UNLOCKED then 0 else s.txLock,
      rxLock := if s.rxLock == UNLOCKED then 0 else s.rxLock)
  }

  // xTaskResumeAll and back to the loop; after Wait the timer task empties the queue
  // without blocking.
  function Leave(s: State, t: Task, op: Op, retry: bool): State {
    Goes(s, t, if !retry then Outside else if op == Wait then AtTop(Receive, false) else AtTop(op, true))
  }

  // A task on a receivers' list, or woken from one, is a receiver that will look at the
  // queue when it runs next.
  predicate WillReceive(calls: map<Task, Call>, region: Region, t: Task) {
    t in calls &&
    match calls[t]
    case AtTop(op, _) => op == Receive || op == Peek
    case Inside => region.Held? && region.task == t && region.op != Send && GoesBack(region.stage)
    case _ => false
  }

  predicate WillSend(calls: map<Task, Call>, region: Region, t: Task) {
    t in calls &&
    match calls[t]
    case AtTop(op, _) => op == Send
    case Inside => region.Held? && region.task == t && region.op == Send && GoesBack(region.stage)
    case _ => false
  }

  predicate GoesBack(stage: Stage) {
    (stage.UnlockTx? || stage.UnlockRx?) && stage.retry
  }

  predicate AllReceive(calls: map<Task, Call>, region: Region, ts: set<Task>) {
    forall t <- ts :: WillReceive(calls, region, t)
  }

  predicate AllSend(calls: map<Task, Call>, region: Region, ts: set<Task>) {
    forall t <- ts :: WillSend(calls, region, t)
  }

  // Exactly the task that has the scheduler suspended is inside.
  ghost predicate InsideFits(calls: map<Task, Call>, region: Region) {
    && (region.Held? ==> region.task in calls && calls[region.task] == Inside)
    && (forall t :: t in calls && calls[t] == Inside ==> region.Held? && region.task == t)
  }

  // The locks are held exactly while a task is between prvLockQueue and the end of
  // prvUnlockQueue.
  predicate LocksFitRegion(s: State) {
    match s.region
    case Free => s.txLock == UNLOCKED && s.rxLock == UNLOCKED
    case Held(t, _, UnlockRx(_)) => s.txLock == UNLOCKED && s.rxLock >= 0
    case Held(t, _, _) => s.txLock >= 0 && s.rxLock >= 0
  }

  ghost predicate Sound(s: State) {
    && s.messages <= s.length
    && LocksFitRegion(s)
    && InsideFits(s.calls, s.region)
    && s.waitR !! s.wokenR && s.waitS !! s.wokenS
    && AllReceive(s.calls, s.region, s.waitR + s.wokenR)
    && AllSend(s.calls, s.region, s.waitS + s.wokenS)
  }

  // If a task waits to receive, every message in the queue is spoken for: by a receiver
  // that was woken and has yet to run, or by an interrupt's note in xTxLock that a
  // receiver must be woken when the queue is unlocked.
  predicate ReceiversCovered(s: State) {
    s.waitR != {} ==> s.messages <= |s.wokenR| + Max0(s.txLock)
  }

  // The same for free slots and senders.
  predicate SendersCovered(s: State) {
    s.waitS != {} ==> s.length - s.messages <= |s.wokenS| + Max0(s.rxLock)
  }

  // A task that found the queue empty (full) and is about to wait has missed only what
  // the lock counts have recorded since.
  predicate AboutToWait(s: State) {
    s.region.Held? && s.region.stage == Placing ==>
      if s.region.op == Send then s.length - s.messages <= s.rxLock else s.messages <= s.txLock
  }

  ghost predicate Inv(s: State) {
    Sound(s) && ReceiversCovered(s) && SendersCovered(s) && AboutToWait(s)
  }

  lemma {:induction false} CardinalityOfUnion(a: set<Task>, b: set<Task>)
    requires a !! b
    ensures |a + b| == |a| + |b|
  {
  }

  lemma CardinalityOfRest(woke: set<Task>, waiting: set<Task>, count: int)
    requires Wakes(woke, waiting, count)
    ensures |waiting - woke| == |waiting| - |woke|
    ensures waiting - woke != {} ==> |woke| == Max0(count)
  {
    assert waiting == woke + (waiting - woke);
  }

  // Waking receivers covers as many messages as there are receivers woken; if receivers
  // are left, as many were woken as were asked for.
  lemma WakeRCounts(s: State, woke: set<Task>, count: int)
    requires s.waitR !! s.wokenR && Wakes(woke, s.waitR, count)
    ensures var r := WakeR(s, woke);
            && r.waitR !! r.wokenR && r.waitR + r.wokenR == s.waitR + s.wokenR
            && (r.waitR != {} ==> s.waitR != {} && |r.wokenR| == |s.wokenR| + Max0(count))
  {
    CardinalityOfUnion(s.wokenR, woke);
    CardinalityOfRest(woke, s.waitR, count);
  }

  lemma WakeSCounts(s: State, woke: set<Task>, count: int)
    requires s.waitS !! s.wokenS && Wakes(woke, s.waitS, count)
    ensures var r := WakeS(s, woke);
            && r.waitS !! r.wokenS && r.waitS + r.wokenS == s.waitS + s.wokenS
            && (r.waitS != {} ==> s.waitS != {} && |r.wokenS| == |s.wokenS| + Max0(count))
  {
    CardinalityOfUnion(s.wokenS, woke);
    CardinalityOfRest(woke, s.waitS, count);
  }

  lemma RemoveOne(a: set<Task>, t: Task)
    ensures |a - {t}| >= |a| - 1
    ensures t !in a ==> a - {t} == a
  {
    if t in a { CardinalityOfUnion(a - {t}, {t}); assert a == (a - {t}) + {t}; }
  }

  // A task that neither list has: where it is in its call matters to nobody else.
  lemma NotQueued(s: State, t: Task)
    requires Sound(s) && !WillReceive(s.calls, s.region, t) && !WillSend(s.calls, s.region, t)
    ensures t !in s.waitR + s.wokenR && t !in s.waitS + s.wokenS
  {
  }

  // Moving task t does not touch what is said of the others.
  lemma OthersKept(calls: map<Task, Call>, t: Task, c: Call, before: Region, after: Region, rs: set<Task>,
      ss: set<Task>)
    requires AllReceive(calls, before, rs) && AllSend(calls, before, ss)
    requires t !in rs && t !in ss
    requires || before == after || (before == Free && after.Held?)
             || (before.Held? && before.task == t && InsideFits(calls, before))
    requires InsideFits(calls, before)
    ensures AllReceive(calls[t := c], after, rs) && AllSend(calls[t := c], after, ss)
  {
  }

  lemma CallSound(s: State, t: Task, op: Op, block: bool)
    requires Inv(s) && Enabled(s, CallOp(t, op, block))
    ensures Sound(Next(s, CallOp(t, op, block)))
  {
    hide AllReceive, AllSend, ReceiversCovered, SendersCovered, AboutToWait;
    NotQueuedAt(s, t);
    var r := Next(s, CallOp(t, op, block));
    OthersKept(s.calls, t, r.calls[t], s.region, r.region, s.waitR + s.wokenR, s.waitS + s.wokenS);
  }

  lemma CallKeeps(s: State, t: Task, op: Op, block: bool)
    requires Inv(s) && Enabled(s, CallOp(t, op, block))
    ensures Inv(Next(s, CallOp(t, op, block)))
  {
    hide Sound;
    SoundFacts(s);
    CallSound(s, t, op, block);
  }

  // A task outside, or between its attempt and the lock, is in no list.
  lemma NotQueuedAt(s: State, t: Task)
    requires Sound(s) && (CallOf(s, t).Outside? || CallOf(s, t).Suspending?)
    ensures t !in s.waitR + s.wokenR && t !in s.waitS + s.wokenS
  {
    NotQueued(s, t);
  }

  lemma LockSound(s: State, t: Task)
    requires Inv(s) && Enabled(s, Lock(t))
    ensures Sound(Next(s, Lock(t)))
  {
    hide AllReceive, AllSend, ReceiversCovered, SendersCovered, AboutToWait;
    NotQueuedAt(s, t);
    var r := Next(s, Lock(t));
    OthersKept(s.calls, t, r.calls[t], s.region, r.region, s.waitR + s.wokenR, s.waitS + s.wokenS);
  }

  lemma LockKeeps(s: State, t: Task)
    requires Inv(s) && Enabled(s, Lock(t))
    ensures Inv(Next(s, Lock(t)))
  {
    hide Sound;
    SoundFacts(s);
    LockSound(s, t);
  }

  lemma InsideSound(s: State, l: Label)
    requires Inv(s) && Enabled(s, l) && (l.CheckForTimeOut? || l.TestQueue?)
    ensures Sound(Next(s, l))
  {
    hide AllReceive, AllSend, ReceiversCovered, SendersCovered, AboutToWait;
    var t := s.region.task;
    NotQueued(s, t);
    OthersKept(s.calls, t, Inside, s.region, Next(s, l).region, s.waitR + s.wokenR, s.waitS + s.wokenS);
    assert s.calls[t := Inside] == s.calls;
  }

  lemma InsideKeeps(s: State, l: Label)
    requires Inv(s) && Enabled(s, l) && (l.CheckForTimeOut? || l.TestQueue?)
    ensures Inv(Next(s, l))
  {
    hide Sound;
    SoundFacts(s);
    InsideSound(s, l);
  }

  lemma OneMore(calls: map<Task, Call>, region: Region, ts: set<Task>, t: Task)
    ensures AllReceive(calls, region, ts) && WillReceive(calls, region, t) ==> AllReceive(calls, region, ts + {t})
    ensures AllSend(calls, region, ts) && WillSend(calls, region, t) ==> AllSend(calls, region, ts + {t})
  {
  }

  lemma PlaceSound(s: State)
    requires Inv(s) && Enabled(s, Place)
    ensures Sound(Next(s, Place))
  {
    hide AllReceive, AllSend, ReceiversCovered, SendersCovered, AboutToWait;
    var t := s.region.task;
    NotQueued(s, t);
    var r := Next(s, Place);
    OthersKept(s.calls, t, Inside, s.region, r.region, s.waitR + s.wokenR, s.waitS + s.wokenS);
    assert s.calls[t := Inside] == s.calls;
    OneMore(s.calls, r.region, s.waitR + s.wokenR, t);
    OneMore(s.calls, r.region, s.waitS + s.wokenS, t);
    assert s.waitR + {t} + s.wokenR == s.waitR + s.wokenR + {t};
    assert s.waitS + {t} + s.wokenS == s.waitS + s.wokenS + {t};
  }

  lemma PlaceKeeps(s: State)
    requires Inv(s) && Enabled(s, Place)
    ensures Inv(Next(s, Place))
  {
    hide Sound;
    SoundFacts(s);
    PlaceSound(s);
  }

  // Both stages of prvUnlockQueue look alike to the tasks in the lists.
  lemma StageKept(calls: map<Task, Call>, t: Task, op: Op, retry: bool, rs: set<Task>, ss: set<Task>)
    requires AllReceive(calls, Held(t, op, UnlockTx(retry)), rs) && AllSend(calls, Held(t, op, UnlockTx(retry)), ss)
    ensures AllReceive(calls, Held(t, op, UnlockRx(retry)), rs) && AllSend(calls, Held(t, op, UnlockRx(retry)), ss)
  {
  }

  lemma UnlockTxSound(s: State, woke: set<Task>)
    requires Inv(s) && Enabled(s, UnlockTxStep(woke))
    ensures Sound(Next(s, UnlockTxStep(woke)))
  {
    hide AllReceive, AllSend, ReceiversCovered, SendersCovered, AboutToWait;
    WakeRCounts(s, woke, s.txLock);
    StageKept(s.calls, s.region.task, s.region.op, s.region.stage.retry, s.waitR + s.wokenR, s.waitS + s.wokenS);
  }

  lemma UnlockTxKeeps(s: State, woke: set<Task>)
    requires Inv(s) && Enabled(s, UnlockTxStep(woke))
    ensures Inv(Next(s, UnlockTxStep(woke)))
  {
    hide Sound;
    SoundFacts(s);
    UnlockTxSound(s, woke);
    WakeRCounts(s, woke, s.txLock);
  }

  // The task that held the scheduler goes back to the head of its loop if it is in a list.
  lemma LeaveKept(calls: map<Task, Call>, region: Region, c: Call, rs: set<Task>, ss: set<Task>)
    requires AllReceive(calls, region, rs) && AllSend(calls, region, ss) && InsideFits(calls, region)
    requires region.Held? && region.stage.UnlockRx?
    requires c == if !region.stage.retry then Outside
                  else if region.op == Wait then AtTop(Receive, false) else AtTop(region.op, true)
    ensures AllReceive(calls[region.task := c], Free, rs) && AllSend(calls[region.task := c], Free, ss)
  {
    assert calls[region.task] == Inside;
  }

  lemma UnlockRxSound(s: State, woke: set<Task>)
    requires Inv(s) && Enabled(s, UnlockRxStep(woke))
    ensures Sound(Next(s, UnlockRxStep(woke)))
  {
    hide AllReceive, AllSend, ReceiversCovered, SendersCovered, AboutToWait;
    WakeSCounts(s, woke, s.rxLock);
    var r := Next(s, UnlockRxStep(woke));
    LeaveKept(s.calls, s.region, r.calls[s.region.task], s.waitR + s.wokenR, s.waitS + s.wokenS);
  }

  lemma UnlockRxKeeps(s: State, woke: set<Task>)
    requires Inv(s) && Enabled(s, UnlockRxStep(woke))
    ensures Inv(Next(s, UnlockRxStep(woke)))
  {
    hide Sound;
    SoundFacts(s);
    UnlockRxSound(s, woke);
    WakeSCounts(s, woke, s.rxLock);
  }

  lemma Fewer(calls: map<Task, Call>, region: Region, rs: set<Task>, ss: set<Task>, rs': set<Task>, ss': set<Task>)
    requires AllReceive(calls, region, rs) && AllSend(calls, region, ss) && rs' <= rs && ss' <= ss
    ensures AllReceive(calls, region, rs') && AllSend(calls, region, ss')
  {
  }

  lemma TimedOutSound(s: State, t: Task)
    requires Inv(s) && Enabled(s, TimedOut(t))
    ensures Sound(Next(s, TimedOut(t)))
  {
    hide AllReceive, AllSend, ReceiversCovered, SendersCovered, AboutToWait;
    var r := Next(s, TimedOut(t));
    Fewer(s.calls, s.region, s.waitR + s.wokenR, s.waitS + s.wokenS, r.waitR + r.wokenR, r.waitS + r.wokenS);
  }

  lemma TimedOutKeeps(s: State, t: Task)
    requires Inv(s) && Enabled(s, TimedOut(t))
    ensures Inv(Next(s, TimedOut(t)))
  {
    hide AllReceive, AllSend, InsideFits;
    TimedOutSound(s, t);
  }

  lemma SoundFacts(s: State)
    requires Sound(s)
    ensures s.messages <= s.length && LocksFitRegion(s) && s.waitR !! s.wokenR && s.waitS !! s.wokenS
  {
  }

  lemma WokenSound(s: State, woke: set<Task>, count: int, messages: nat)
    requires Sound(s) && messages <= s.length
    ensures Wakes(woke, s.waitR, count) ==> Sound(WakeR(s, woke).(messages := messages))
    ensures Wakes(woke, s.waitS, count) ==> Sound(WakeS(s, woke).(messages := messages))
  {
    hide AllReceive, AllSend, InsideFits;
    if Wakes(woke, s.waitR, count) { WakeRCounts(s, woke, count); }
    if Wakes(woke, s.waitS, count) { WakeSCounts(s, woke, count); }
  }

  lemma CountsSound(s: State, messages: nat, txLock: int, rxLock: int)
    requires Sound(s) && messages <= s.length
    requires txLock == s.txLock || (s.txLock >= 0 && txLock >= 0)
    requires rxLock == s.rxLock || (s.rxLock >= 0 && rxLock >= 0)
    ensures Sound(s.(messages := messages, txLock := txLock, rxLock := rxLock))
  {
    hide AllReceive, AllSend, InsideFits;
  }

  // An interrupt sends to an unlocked queue, and wakes a receiver if there is one.
  lemma IsrSendWakes(s: State, woke: set<Task>)
    requires Inv(s) && !Full(s) && s.txLock == UNLOCKED && Wakes(woke, s.waitR, 1)
    ensures Inv(WakeR(s, woke).(messages := s.messages + 1))
  {
    hide Sound, Wakes;
    SoundFacts(s);
    WokenSound(s, woke, 1, s.messages + 1);
    WakeRCounts(s, woke, 1);
  }

  // It sends to a locked one, and notes that.
  lemma IsrSendNotes(s: State)
    requires Inv(s) && !Full(s) && s.txLock != UNLOCKED
    ensures Inv(s.(messages := s.messages + 1, txLock := s.txLock + 1))
  {
    hide Sound;
    SoundFacts(s);
    CountsSound(s, s.messages + 1, s.txLock + 1, s.rxLock);
  }

  lemma IsrSendKeeps(s: State, woke: set<Task>)
    requires Inv(s) && Enabled(s, IsrSend(woke))
    ensures Inv(Next(s, IsrSend(woke)))
  {
    hide Inv, Wakes, WakeR;
    if !Full(s) {
      if s.txLock == UNLOCKED { IsrSendWakes(s, woke); } else { IsrSendNotes(s); }
    }
  }

  lemma IsrReceiveKeeps(s: State, woke: set<Task>)
    requires Inv(s) && Enabled(s, IsrReceive(woke))
    ensures Inv(Next(s, IsrReceive(woke)))
  {
    hide Sound, Wakes;
    SoundFacts(s);
    if s.messages > 0 {
      if s.rxLock == UNLOCKED {
        WokenSound(s, woke, 1, s.messages - 1);
        WakeSCounts(s, woke, 1);
      } else {
        CountsSound(s, s.messages - 1, s.txLock, s.rxLock + 1);
      }
    }
  }

  // A task at the head of its loop that is on no list can only be among those woken for
  // its own operation, and it is taken out of those.
  lemma RunsNow(s: State, t: Task)
    requires Sound(s) && CallOf(s, t).AtTop? && CallOf(s, t).op != Wait && t !in s.waitR + s.waitS
    ensures CallOf(s, t).op == Send ==> t !in s.waitR + s.wokenR && t !in s.waitS + (s.wokenS - {t})
    ensures CallOf(s, t).op != Send ==> t !in s.waitS + s.wokenS && t !in s.waitR + (s.wokenR - {t})
  {
  }

  lemma RanSound(s: State, t: Task, c: Call)
    requires Sound(s) && s.region == Free && CallOf(s, t).AtTop? && CallOf(s, t).op != Wait && t !in s.waitR + s.waitS
    requires c != Inside
    ensures Sound(Ran(s, t, CallOf(s, t).op, c))
  {
    hide AllReceive, AllSend;
    var r := Ran(s, t, CallOf(s, t).op, c);
    RunsNow(s, t);
    Fewer(s.calls, s.region, s.waitR + s.wokenR, s.waitS + s.wokenS, r.waitR + r.wokenR, r.waitS + r.wokenS);
    OthersKept(s.calls, t, c, s.region, s.region, r.waitR + r.wokenR, r.waitS + r.wokenS);
  }

  lemma AttemptSound(s: State, t: Task, woke: set<Task>)
    requires Inv(s) && Enabled(s, Attempt(t, woke))
    ensures Sound(Next(s, Attempt(t, woke)))
  {
    hide AllReceive, AllSend, InsideFits, ReceiversCovered, SendersCovered, AboutToWait;
    var op := CallOf(s, t).op;
    var r := Next(s, Attempt(t, woke));
    RanSound(s, t, r.calls[t]);
    if Succeeds(s, op) {
      WokenSound(Ran(s, t, op, Outside), woke, 1, r.messages);
    }
  }

  lemma AttemptKeeps(s: State, t: Task, woke: set<Task>)
    requires Inv(s) && Enabled(s, Attempt(t, woke))
    ensures Inv(Next(s, Attempt(t, woke)))
  {
    hide Sound, Goes;
    SoundFacts(s);
    AttemptSound(s, t, woke);
    var op := CallOf(s, t).op;
    RemoveOne(s.wokenS, t);
    RemoveOne(s.wokenR, t);
    if Succeeds(s, op) {
      RanSound(s, t, Outside);
      var s1 := Ran(s, t, op, Outside);
      SoundFacts(s1);
      GoesOnly(if op == Send then s.(wokenS := s.wokenS - {t}) else s.(wokenR := s.wokenR - {t}), t, Outside);
      if op == Receive { WakeSCounts(s1, woke, 1); } else { WakeRCounts(s1, woke, 1); }
    } else {
      var c := if CallOf(s, t).block then Suspending(op) else Outside;
      GoesOnly(if op == Send then s.(wokenS := s.wokenS - {t}) else s.(wokenR := s.wokenR - {t}), t, c);
    }
  }

  lemma GoesOnly(s: State, t: Task, c: Call)
    ensures Goes(s, t, c).(calls := s.calls) == s
  {
  }

  lemma StepKeeps(s: State, l: Label)
    requires Inv(s) && Enabled(s, l)
    ensures Inv(Next(s, l))
  {
    hide Inv, Enabled, Next;
    match l
    case CallOp(t, op, block) => CallKeeps(s, t, op, block);
    case Attempt(t, woke) => AttemptKeeps(s, t, woke);
    case Lock(t) => LockKeeps(s, t);
    case CheckForTimeOut(_) => InsideKeeps(s, l);
    case TestQueue => InsideKeeps(s, l);
    case Place => PlaceKeeps(s);
    case UnlockTxStep(woke) => UnlockTxKeeps(s, woke);
    case UnlockRxStep(woke) => UnlockRxKeeps(s, woke);
    case TimedOut(t) => TimedOutKeeps(s, t);
    case IsrSend(woke) => IsrSendKeeps(s, woke);
    case IsrReceive(woke) => IsrReceiveKeeps(s, woke);
  }

  // A queue as xQueueGenericCreate or xQueueCreateCountingSemaphore leaves it, nobody
  // using it yet.
  predicate Initial(s: State) {
    && s.length > 0 && s.messages <= s.length
    && s.txLock == UNLOCKED && s.rxLock == UNLOCKED && s.region == Free
    && s.calls == map[]
    && s.waitR == {} && s.waitS == {} && s.wokenR == {} && s.wokenS == {}
  }

  predicate CanRun(s: State, ls: seq<Label>)
    decreases |ls|
  {
    ls == [] || (Enabled(s, ls[0]) && CanRun(Next(s, ls[0]), ls[1..]))
  }

  function Run(s: State, ls: seq<Label>): State
    requires CanRun(s, ls)
    decreases |ls|
  {
    if ls == [] then s else Run(Next(s, ls[0]), ls[1..])
  }

  lemma {:induction false} RunKeeps(s: State, ls: seq<Label>)
    requires Inv(s) && CanRun(s, ls)
    ensures Inv(Run(s, ls))
    decreases |ls|
  {
    hide Inv, Enabled, Next;
    if ls != [] {
      StepKeeps(s, ls[0]);
      RunKeeps(Next(s, ls[0]), ls[1..]);
    }
  }

  lemma {:induction false} RunOn(s: State, a: seq<Label>, b: seq<Label>)
    ensures CanRun(s, a + b) <==> CanRun(s, a) && CanRun(Run(s, a), b)
    ensures CanRun(s, a + b) ==> Run(s, a + b) == Run(Run(s, a), b)
    decreases |a|
  {
    hide Enabled, Next;
    if a == [] {
      assert a + b == b;
    } else {
      assert (a + b)[1..] == a[1..] + b;
      if Enabled(s, a[0]) { RunOn(Next(s, a[0]), a[1..], b); }
    }
  }

  lemma RunOne(s: State, l: Label)
    ensures CanRun(s, [l]) <==> Enabled(s, l)
    ensures Enabled(s, l) ==> Run(s, [l]) == Next(s, l)
  {
    hide Enabled, Next;
    if Enabled(s, l) { assert CanRun(Next(s, l), [l][1..]) && Run(Next(s, l), [l][1..]) == Next(s, l); }
  }

  // No wake-up is lost, in any interleaving: as long as a task waits to receive, the
  // messages in the queue do not outnumber the receivers already woken plus the wake-ups
  // noted in xTxLock; and likewise for free slots and senders.
  lemma NoLostWakeUp(s: State, ls: seq<Label>)
    requires Initial(s) && CanRun(s, ls)
    ensures var r := Run(s, ls);
            && Sound(r)
            && (r.waitR != {} ==> r.messages <= |r.wokenR| + Max0(r.txLock))
            && (r.waitS != {} ==> r.length - r.messages <= |r.wokenS| + Max0(r.rxLock))
  {
    hide CanRun, Run;
    assert Inv(s);
    RunKeeps(s, ls);
  }

  // An unlocked queue strands nobody: if a task waits to receive and no woken receiver has
  // yet to run, the queue is empty; if a task waits to send and no woken sender has yet to
  // run, the queue is full.
  lemma NobodyStranded(s: State, ls: seq<Label>)
    requires Initial(s) && CanRun(s, ls) && Run(s, ls).region == Free
    ensures var r := Run(s, ls);
            && (r.waitR != {} && r.wokenR == {} ==> r.messages == 0)
            && (r.waitS != {} && r.wokenS == {} ==> r.messages == r.length)
  {
    hide CanRun, Run;
    NoLostWakeUp(s, ls);
  }

  function Elements(ts: seq<Task>): set<Task> { set t | t in ts }

  predicate NoRepeats(ts: seq<Task>) {
    forall i, j :: 0 <= i < j < |ts| ==> ts[i] != ts[j]
  }

  lemma {:induction false} ElementsCount(ts: seq<Task>)
    requires NoRepeats(ts)
    ensures |Elements(ts)| == |ts|
  {
    if ts != [] {
      ElementsCount(ts[1..]);
      assert Elements(ts) == {ts[0]} + Elements(ts[1..]);
      assert ts[0] !in Elements(ts[1..]);
    }
  }

  // Taking tasks off the front of an event list, as many as the lock count asks for or the
  // list has, is a wake-up the step relation allows.
  lemma FrontWakes(ts: seq<Task>, count: int)
    requires NoRepeats(ts)
    ensures var k := Min(Max0(count), |ts|);
            && Wakes(Elements(ts[..k]), Elements(ts), count)
            && Elements(ts[k..]) == Elements(ts) - Elements(ts[..k])
  {
    var k := Min(Max0(count), |ts|);
    ElementsCount(ts);
    ElementsCount(ts[..k]);
    assert ts == ts[..k] + ts[k..];
  }

  // What xQueueGenericReset does to a queue that exists already: it is emptied and
  // unlocked, and one waiting sender is woken.
  function ResetOf(s: State, woke: set<Task>): State {
    WakeS(s, woke).(messages := 0, txLock := UNLOCKED, rxLock := UNLOCKED)
  }

  // One wake-up is enough exactly if at most one task waited to send, or the free slots do
  // not outnumber the senders on their way; waiting receivers lose nothing.
  lemma ResetCovers(s: State, woke: set<Task>)
    requires Sound(s) && Wakes(woke, s.waitS, 1)
    ensures ReceiversCovered(ResetOf(s, woke))
    ensures SendersCovered(ResetOf(s, woke)) <==> |s.waitS| <= 1 || s.length <= |s.wokenS| + 1
  {
    CardinalityOfRest(woke, s.waitS, 1);
    CardinalityOfUnion(s.wokenS, woke);
    var r := ResetOf(s, woke);
    assert r.waitS == s.waitS - woke && r.wokenS == s.wokenS + woke;
  }
}
