// Recursive mutexes (utilities/FreeRTOSV7.3.0/queue.c): a queue of length one and item
// size zero whose pcTail holds the owner and whose pcReadFrom counts the calls.  The tests
// of the owner are not protected by any critical section, so every access is a step of its
// own and the steps of all tasks interleave.
module RecursiveMutex {
  import opened Basics

  type Task = nat

  datatype PC =
    | Idle
    | Taking       // not the holder: inside xQueueGenericReceive, perhaps blocked
    | Counting     // holds the mutex, about to increment uxRecursiveCallCount
    | Uncounting   // is the holder, about to decrement it
    | Giving       // counted down to zero, about to call xQueueGenericSend

  // takes and gives count the calls of each task that returned pdPASS.
  datatype State = State(
    messages: nat,
    holder: Option<Task>,
    callCount: int,
    pcs: map<Task, PC>,
    takes: map<Task, nat>,
    gives: map<Task, nat>)

  function PcOf(s: State, t: Task): PC { if t in s.pcs then s.pcs[t] else Idle }

  function Count(m: map<Task, nat>, t: Task): nat { if t in m then m[t] else 0 }

  // How often the task has taken the mutex without giving it back.
  function Depth(s: State, t: Task): int { Count(s.takes, t) - Count(s.gives, t) }

  function Goes(s: State, t: Task, pc: PC): State { s.(pcs := s.pcs[t := pc]) }

  function Took(s: State, t: Task): State { s.(takes := s.takes[t := Count(s.takes, t) + 1]) }

  function Gave(s: State, t: Task): State { s.(gives := s.gives[t := Count(s.gives, t) + 1]) }

  datatype Label =
    | TakeTest(t: Task)     // line 526
    | Obtain(t: Task)       // the critical section of xQueueGenericReceive with a token there
    | GiveUp(t: Task)       // xQueueGenericReceive times out
    | CountUp(t: Task)      // lines 528 and 539
    | GiveTest(t: Task)     // line 478
    | CountDown(t: Task)    // lines 487-490
    | Release(t: Task)      // line 494

  predicate Enabled(s: State, l: Label) {
    match l
    case TakeTest(t) => PcOf(s, t) == Idle
    case Obtain(t) => PcOf(s, t) == Taking && s.messages > 0
    case GiveUp(t) => PcOf(s, t) == Taking
    case CountUp(t) => PcOf(s, t) == Counting
    case GiveTest(t) => PcOf(s, t) == Idle
    case CountDown(t) => PcOf(s, t) == Uncounting
    case Release(t) => PcOf(s, t) == Giving
  }

  function Next(s: State, l: Label): State
    requires Enabled(s, l)
  {
    match l
    case TakeTest(t) => Goes(s, t, if s.holder == Some(t) then Counting else Taking)
    case Obtain(t) => Goes(s, t, Counting).(messages := s.messages - 1, holder := Some(t))
    case GiveUp(t) => Goes(s, t, Idle)
    case CountUp(t) => Took(Goes(s, t, Idle), t).(callCount := s.callCount + 1)
    case GiveTest(t) => if s.holder == Some(t) then Goes(s, t, Uncounting) else s
    case CountDown(t) =>
      var s1 := s.(callCount := s.callCount - 1);
      if s1.callCount == 0 then Goes(s1, t, Giving) else Gave(Goes(s1, t, Idle), t)
    case Release(t) =>
      // xQueueGenericSend does not block here: with the queue full it fails and its result
      // is ignored.
      var s1 := if s.messages < 1 then s.(messages := s.messages + 1, holder := None) else s;
      Gave(Goes(s1, t, Idle), t)
  }

  // What is true of one task.
  predicate TaskFits(s: State, t: Task) {
    if s.holder == Some(t) then
      match PcOf(s, t)
      case Idle => s.callCount == Depth(s, t) && Depth(s, t) > 0
      case Counting => s.callCount == Depth(s, t) && Depth(s, t) >= 0
      case Uncounting => s.callCount == Depth(s, t) && Depth(s, t) > 0
      case Giving => s.callCount == 0 && Depth(s, t) == 1
      case Taking => false
    else
      Depth(s, t) == 0 && (PcOf(s, t) == Idle || PcOf(s, t) == Taking)
  }

  ghost predicate Inv(s: State) {
    && s.messages + (if s.holder == None then 0 else 1) == 1
    && (s.holder == None ==> s.callCount == 0)
    && (forall t :: TaskFits(s, t))
  }

  // What a step of one task leaves alone in the eyes of another.
  lemma OthersFit(s: State, l: Label, u: Task)
    requires Inv(s) && Enabled(s, l) && u != l.t
    ensures TaskFits(Next(s, l), u)
  {
    assert TaskFits(s, u) && TaskFits(s, l.t);
  }

  lemma StepKeeps(s: State, l: Label)
    requires Inv(s) && Enabled(s, l)
    ensures Inv(Next(s, l))
  {
    assert TaskFits(s, l.t);
    forall u ensures TaskFits(Next(s, l), u) {
      if u != l.t { OthersFit(s, l, u); }
    }
  }

  // xQueueCreateMutex: its closing xQueueGenericSend puts the token in.
  const CREATED: State := State(1, None, 0, map[], map[], map[])

  predicate CanRun(s: State, ls: seq<Label>)
    decreases |ls|
  {
    ls == [] || (Enabled(s, ls[0]) && CanRun(Next(s, ls[0]), ls[1..]))
  }

  function Run(s: State, ls: seq<Label>): State
    requires CanRun(s, ls)
    decreases |ls|
  {
    if ls == [] then s else Run(Next(s, ls[0]), ls[1..])
  }

  lemma {:induction false} RunKeeps(s: State, ls: seq<Label>)
    requires Inv(s) && CanRun(s, ls)
    ensures Inv(Run(s, ls))
    decreases |ls|
  {
    hide Inv, Enabled, Next;
    if ls != [] {
      StepKeeps(s, ls[0]);
      RunKeeps(Next(s, ls[0]), ls[1..]);
    }
  }

  // In every interleaving: there is one token, in the queue or with the holder; a task is
  // inside exactly if it is the holder and no call of it is in progress or it has counted;
  // and the call count is the holder's depth whenever the holder is between calls.
  lemma MutexInvariant(ls: seq<Label>, t: Task)
    requires CanRun(CREATED, ls)
    ensures var s := Run(CREATED, ls);
            && s.messages + (if s.holder == None then 0 else 1) == 1
            && Depth(s, t) >= 0
            && (Depth(s, t) > 0 ==> s.holder == Some(t))
            && (PcOf(s, t) == Idle ==>
                  && (Depth(s, t) > 0 <==> s.holder == Some(t))
                  && (s.holder == Some(t) ==> s.callCount == Depth(s, t)))
  {
    assert Inv(CREATED);
    RunKeeps(CREATED, ls);
    assert TaskFits(Run(CREATED, ls), t);
  }

  lemma MutualExclusion(ls: seq<Label>, t: Task, u: Task)
    requires CanRun(CREATED, ls) && Depth(Run(CREATED, ls), t) > 0 && Depth(Run(CREATED, ls), u) > 0
    ensures t == u
  {
    hide CanRun, Run, Depth;
    MutexInvariant(ls, t);
    MutexInvariant(ls, u);
  }

  // A give starts to count down exactly for a task that has the mutex.  The give of any
  // other task fails and changes nothing.
  lemma OnlyTheHolderGives(ls: seq<Label>, t: Task)
    requires CanRun(CREATED, ls) && Enabled(Run(CREATED, ls), GiveTest(t))
    ensures var s := Run(CREATED, ls);
            if Depth(s, t) > 0 then PcOf(Next(s, GiveTest(t)), t) == Uncounting else Next(s, GiveTest(t)) == s
  {
    MutexInvariant(ls, t);
  }

  // Counting down releases the mutex exactly if this give is the outermost one, and the
  // release then finds the queue empty, so it always takes effect.
  lemma OnlyTheOutermostReleases(ls: seq<Label>, t: Task)
    requires CanRun(CREATED, ls) && Enabled(Run(CREATED, ls), CountDown(t))
    ensures var s := Run(CREATED, ls);
            var s1 := Next(s, CountDown(t));
            && Depth(s, t) > 0
            && (PcOf(s1, t) == Giving <==> Depth(s, t) == 1)
            && (Depth(s, t) > 1 ==> s1.holder == Some(t) && Depth(s1, t) == Depth(s, t) - 1 && s1.messages == 0)
            && (Depth(s, t) == 1 ==>
                  var s2 := Next(s1, Release(t));
                  s2.holder == None && s2.messages == 1 && Depth(s2, t) == 0 && s2.callCount == 0)
  {
    assert Inv(CREATED);
    RunKeeps(CREATED, ls);
    var s := Run(CREATED, ls);
    assert TaskFits(s, t);
  }

  // Nothing that other tasks do changes how deep a task is, what it is doing, whether it is
  // the holder, or the call count if it is.
  predicate SameFor(s: State, r: State, t: Task) {
    && PcOf(r, t) == PcOf(s, t)
    && Depth(r, t) == Depth(s, t)
    && (r.holder == Some(t) <==> s.holder == Some(t))
    && (s.holder == Some(t) ==> r.callCount == s.callCount)
  }

  predicate ByOthers(ls: seq<Label>, t: Task) { forall i :: 0 <= i < |ls| ==> ls[i].t != t }

  lemma OneOther(s: State, l: Label, t: Task)
    requires Inv(s) && Enabled(s, l) && l.t != t
    ensures SameFor(s, Next(s, l), t)
  {
    assert TaskFits(s, l.t) && TaskFits(s, t);
  }

  lemma {:induction false} OthersDoNotInterfere(s: State, ls: seq<Label>, t: Task)
    requires Inv(s) && CanRun(s, ls) && ByOthers(ls, t)
    ensures SameFor(s, Run(s, ls), t)
    decreases |ls|
  {
    hide Inv, Enabled, Next;
    if ls != [] {
      StepKeeps(s, ls[0]);
      OneOther(s, ls[0], t);
      OthersDoNotInterfere(Next(s, ls[0]), ls[1..], t);
    }
  }

  lemma {:induction false} RunOn(s: State, a: seq<Label>, b: seq<Label>)
    ensures CanRun(s, a + b) <==> CanRun(s, a) && CanRun(Run(s, a), b)
    ensures CanRun(s, a + b) ==> Run(s, a + b) == Run(Run(s, a), b)
    decreases |a|
  {
    hide Enabled, Next;
    if a == [] {
      assert a + b == b;
    } else {
      assert (a + b)[1..] == a[1..] + b;
      if Enabled(s, a[0]) { RunOn(Next(s, a[0]), a[1..], b); }
    }
  }

  // A step, what others do, and the next step of the same call.
  lemma Around(s: State, a: Label, between: seq<Label>, b: Label)
    requires CanRun(s, [a] + between + [b])
    ensures Enabled(s, a) && CanRun(Next(s, a), between) && Enabled(Run(Next(s, a), between), b)
    ensures Run(s, [a] + between + [b]) == Next(Run(Next(s, a), between), b)
  {
    hide Enabled, Next;
    assert [a] + between + [b] == [a] + (between + [b]);
    RunOne(s, a);
    RunOn(s, [a], between + [b]);
    RunOn(Next(s, a), between, [b]);
    RunOne(Run(Next(s, a), between), b);
  }

  lemma RunOne(s: State, l: Label)
    ensures CanRun(s, [l]) <==> Enabled(s, l)
    ensures Enabled(s, l) ==> Run(s, [l]) == Next(s, l)
  {
    hide Enabled, Next;
    if Enabled(s, l) { assert CanRun(Next(s, l), [l][1..]) && Run(Next(s, l), [l][1..]) == Next(s, l); }
  }

  // The same for three steps of a call.
  lemma TwiceAround(s: State, a: Label, before: seq<Label>, b: Label, after: seq<Label>, c: Label)
    requires CanRun(s, [a] + before + [b] + after + [c])
    ensures CanRun(s, [a] + before + [b])
    ensures var r := Run(s, [a] + before + [b]);
            && CanRun(r, after) && Enabled(Run(r, after), c)
            && Run(s, [a] + before + [b] + after + [c]) == Next(Run(r, after), c)
  {
    hide Enabled, Next;
    assert [a] + before + [b] + after + [c] == ([a] + before + [b]) + (after + [c]);
    RunOn(s, [a] + before + [b], after + [c]);
    var r := Run(s, [a] + before + [b]);
    RunOn(r, after, [c]);
    RunOne(Run(r, after), c);
  }

  // The steps of one call of xQueueTakeMutexRecursive.  before is what other tasks do while
  // it waits to receive, after what they do until it has counted; gets says whether the
  // token comes before the block time is over.
  function TakeCall(s: State, t: Task, before: seq<Label>, gets: bool, after: seq<Label>): seq<Label> {
    if s.holder == Some(t) then [TakeTest(t)] + after + [CountUp(t)]
    else if gets then [TakeTest(t)] + before + [Obtain(t)] + after + [CountUp(t)]
    else [TakeTest(t)] + before + [GiveUp(t)]
  }

  // Those of xQueueGiveMutexRecursive.
  function GiveCall(s: State, t: Task, before: seq<Label>, after: seq<Label>): seq<Label> {
    if s.holder != Some(t) then [GiveTest(t)]
    else if s.callCount == 1 then [GiveTest(t)] + before + [CountDown(t)] + after + [Release(t)]
    else [GiveTest(t)] + before + [CountDown(t)]
  }

  // Such a call, step by step.
  lemma TakeCallSteps(s: State, t: Task, before: seq<Label>, gets: bool, after: seq<Label>)
    requires Inv(s) && CanRun(s, TakeCall(s, t, before, gets, after))
    ensures Enabled(s, TakeTest(t))
    ensures var s1 := Next(s, TakeTest(t));
            var call := Run(s, TakeCall(s, t, before, gets, after));
            if s.holder == Some(t) then
              CanRun(s1, after) && Enabled(Run(s1, after), CountUp(t)) && call == Next(Run(s1, after), CountUp(t))
            else
              var end := if gets then Obtain(t) else GiveUp(t);
              && CanRun(s1, before) && Enabled(Run(s1, before), end)
              && var s2 := Next(Run(s1, before), end);
                 if gets then
                   CanRun(s2, after) && Enabled(Run(s2, after), CountUp(t)) && call == Next(Run(s2, after), CountUp(t))
                 else call == s2
  {
    hide Inv, CanRun, Run, Enabled, Next;
    if s.holder == Some(t) {
      Around(s, TakeTest(t), after, CountUp(t));
    } else if gets {
      TwiceAround(s, TakeTest(t), before, Obtain(t), after, CountUp(t));
      Around(s, TakeTest(t), before, Obtain(t));
    } else {
      Around(s, TakeTest(t), before, GiveUp(t));
    }
  }

  lemma GiveCallSteps(s: State, t: Task, before: seq<Label>, after: seq<Label>)
    requires Inv(s) && CanRun(s, GiveCall(s, t, before, after))
    ensures Enabled(s, GiveTest(t))
    ensures var s1 := Next(s, GiveTest(t));
            var call := Run(s, GiveCall(s, t, before, after));
            if s.holder != Some(t) then call == s1
            else
              && CanRun(s1, before) && Enabled(Run(s1, before), CountDown(t))
              && var s2 := Next(Run(s1, before), CountDown(t));
                 if s.callCount == 1 then
                   CanRun(s2, after) && Enabled(Run(s2, after), Release(t)) && call == Next(Run(s2, after), Release(t))
                 else call == s2
  {
    hide Inv, CanRun, Run, Enabled, Next;
    if s.holder != Some(t) {
      RunOne(s, GiveTest(t));
    } else if s.callCount == 1 {
      TwiceAround(s, GiveTest(t), before, CountDown(t), after, Release(t));
      Around(s, GiveTest(t), before, CountDown(t));
    } else {
      Around(s, GiveTest(t), before, CountDown(t));
    }
  }

  // What the steps of a take do to the task that takes.
  lemma TakesAre(s: State, t: Task)
    requires Inv(s)
    ensures Enabled(s, TakeTest(t)) ==> Inv(Next(s, TakeTest(t))) && Depth(Next(s, TakeTest(t)), t) == Depth(s, t)
    ensures Enabled(s, Obtain(t)) ==> Inv(Next(s, Obtain(t))) && Depth(Next(s, Obtain(t)), t) == Depth(s, t)
    ensures Enabled(s, GiveUp(t)) ==> Inv(Next(s, GiveUp(t))) && Depth(Next(s, GiveUp(t)), t) == Depth(s, t)
    ensures Enabled(s, CountUp(t)) ==> Inv(Next(s, CountUp(t))) && Depth(Next(s, CountUp(t)), t) == Depth(s, t) + 1
  {
    hide Inv;
    if Enabled(s, TakeTest(t)) { StepKeeps(s, TakeTest(t)); }
    if Enabled(s, Obtain(t)) { StepKeeps(s, Obtain(t)); }
    if Enabled(s, GiveUp(t)) { StepKeeps(s, GiveUp(t)); }
    if Enabled(s, CountUp(t)) { StepKeeps(s, CountUp(t)); }
  }

  // And those of a give, to the task that is the holder.
  lemma GivesAre(s: State, t: Task)
    requires Inv(s)
    ensures Enabled(s, GiveTest(t)) ==> Inv(Next(s, GiveTest(t))) && Depth(Next(s, GiveTest(t)), t) == Depth(s, t)
    ensures Enabled(s, CountDown(t)) ==> Inv(Next(s, CountDown(t))) && s.callCount == Depth(s, t) > 0
    ensures Enabled(s, CountDown(t)) ==>
              Depth(Next(s, CountDown(t)), t) == Depth(s, t) - if s.callCount == 1 then 0 else 1
    ensures Enabled(s, CountDown(t)) || Enabled(s, Release(t)) ==> s.holder == Some(t)
    ensures Enabled(s, Release(t)) ==>
              Inv(Next(s, Release(t))) && s.messages == 0 && Depth(s, t) == 1 && Depth(Next(s, Release(t)), t) == 0
  {
    assert TaskFits(s, t);
    if Enabled(s, GiveTest(t)) { StepKeeps(s, GiveTest(t)); }
    if Enabled(s, CountDown(t)) { StepKeeps(s, CountDown(t)); }
    if Enabled(s, Release(t)) { StepKeeps(s, Release(t)); }
  }

  // The two functions, with whatever other tasks do between the accesses of the caller.
  class Mutex {
    var uxMessagesWaiting: nat
    var pxMutexHolder: Option<Task>
    var uxRecursiveCallCount: int

    // The tasks, as the step relation sees them.
    var tasks: State

    function View(): State
      reads this
    {
      tasks.(messages := uxMessagesWaiting, holder := pxMutexHolder, callCount := uxRecursiveCallCount)
    }

    ghost predicate Valid()
      reads this
    {
      Inv(View())
    }

    constructor ()
      ensures Valid() && View() == CREATED
    {
      uxMessagesWaiting, pxMutexHolder, uxRecursiveCallCount, tasks := 1, None, 0, CREATED;
    }

    // Other tasks run.
    method Others(ls: seq<Label>, ghost t: Task)
      requires Valid() && CanRun(View(), ls) && ByOthers(ls, t)
      modifies this
      ensures Valid() && View() == Run(old(View()), ls) && SameFor(old(View()), View(), t)
    {
      hide Inv, Next, Enabled, SameFor, Run, CanRun;
      RunKeeps(View(), ls);
      OthersDoNotInterfere(View(), ls, t);
      tasks := Run(View(), ls);
      uxMessagesWaiting, pxMutexHolder, uxRecursiveCallCount := tasks.messages, tasks.holder, tasks.callCount;
    }

    // xQueueTakeMutexRecursive
    method TakeMutexRecursive(current: Task, before: seq<Label>, gets: bool, after: seq<Label>) returns (pass: bool)
      requires Valid() && ByOthers(before, current) && ByOthers(after, current)
      requires CanRun(View(), TakeCall(View(), current, before, gets, after))
      modifies this
      ensures Valid() && View() == Run(old(View()), TakeCall(old(View()), current, before, gets, after))
      ensures pass == (old(pxMutexHolder) == Some(current) || gets)
      ensures pass ==> pxMutexHolder == Some(current)
      ensures Depth(View(), current) == Depth(old(View()), current) + if pass then 1 else 0
    {
      hide Inv, CanRun, Run, Depth, PcOf, TaskFits, ByOthers;
      TakeCallSteps(View(), current, before, gets, after);
      TakesAre(View(), current);
      tasks := Next(View(), TakeTest(current));
      if pxMutexHolder == Some(current) {
        Others(after, current);
        TakesAre(View(), current);
        tasks := Next(View(), CountUp(current));
        uxRecursiveCallCount := uxRecursiveCallCount + 1;
        pass := true;
      } else {
        Others(before, current);
        TakesAre(View(), current);
        tasks := Next(View(), if gets then Obtain(current) else GiveUp(current));
        if gets {
          uxMessagesWaiting := uxMessagesWaiting - 1;
          pxMutexHolder := Some(current);
        }
        pass := gets;
        if pass {
          Others(after, current);
          TakesAre(View(), current);
          tasks := Next(View(), CountUp(current));
          uxRecursiveCallCount := uxRecursiveCallCount + 1;
        }
      }
    }

    // xQueueGiveMutexRecursive
    method GiveMutexRecursive(current: Task, before: seq<Label>, after: seq<Label>) returns (pass: bool)
      requires Valid() && ByOthers(before, current) && ByOthers(after, current)
      requires CanRun(View(), GiveCall(View(), current, before, after))
      modifies this
      ensures Valid() && View() == Run(old(View()), GiveCall(old(View()), current, before, after))
      ensures pass == (old(pxMutexHolder) == Some(current))
      ensures !pass ==> unchanged(this)
      ensures Depth(View(), current) == Depth(old(View()), current) - if pass then 1 else 0
      ensures pass ==> pxMutexHolder == if Depth(View(), current) == 0 then None else Some(current)
    {
      hide Inv, CanRun, Run, Depth, PcOf, TaskFits, ByOthers;
      GiveCallSteps(View(), current, before, after);
      GivesAre(View(), current);
      if pxMutexHolder == Some(current) {
        tasks := Next(View(), GiveTest(current));
        Others(before, current);
        GivesAre(View(), current);
        tasks := Next(View(), CountDown(current));
        uxRecursiveCallCount := uxRecursiveCallCount - 1;
        if uxRecursiveCallCount == 0 {
          Others(after, current);
          GivesAre(View(), current);
          tasks := Next(View(), Release(current));
          if uxMessagesWaiting < 1 {
            pxMutexHolder := None;
            uxMessagesWaiting := uxMessagesWaiting + 1;
          }
        }
        pass := true;
      } else {
        pass := false;
      }
    }
  }
}
