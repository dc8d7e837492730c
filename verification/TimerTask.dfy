// timers_rtos.c on its static variables: the same functions as TimerDaemon.dfy, with
// the branches and loops of the source, updating fields in place.
module TimerTask {
  import opened Basics
  import opened Ticks
  import opened SortedList
  import D = TimerDaemon
  import TimerRuns

  // What is left to do for a queue of commands at a sampled time: a Start that fires and
  // is sent again has come one period closer to now.
  function Weight(q: seq<D.Message>, now: Tick): nat {
    if q == [] then 0
    else 1 + (if q[0].command == D.Start then Sub(now, q[0].value) else 0) + Weight(q[1..], now)
  }

  lemma {:induction false} WeightAppend(q: seq<D.Message>, m: D.Message, now: Tick)
    ensures Weight(q + [m], now) == Weight(q, now) + Weight([m], now)
  {
    if q == [] {
      assert q + [m] == [m];
    } else {
      WeightAppend(q[1..], m, now);
      assert (q + [m])[1..] == q[1..] + [m];
    }
  }

  lemma ResentIsCloser(now: Tick, stamp: Tick, period: Period)
    requires Sub(now, stamp) >= period
    ensures Sub(now, Add(stamp, period)) == Sub(now, stamp) - period
  {
  }

  lemma ReceiveLightens(d: D.Daemon)
    requires D.Valid(d) && d.queue != [] && D.Usable(d.queue[0], d.timers)
    ensures var r := D.ReceiveCommand(d);
            r.lastTime == d.lastTime && Weight(r.queue, d.lastTime) < Weight(d.queue, d.lastTime)
  {
    hide SortedList.Insert, SortedList.Remove, D.Valid, Add, Sub;
    var m := d.queue[0];
    if m.command == D.Start {
      var period := d.timers[m.timer].period;
      D.DecisionIsModular(d.lastTime, m.value, period);
      if Sub(d.lastTime, m.value) >= period {
        ResentIsCloser(d.lastTime, m.value, period);
        WeightAppend(d.queue[1..], D.Message(D.Start, Add(m.value, period), m.timer), d.lastTime);
      }
    }
  }

  // Every command found until the queue is empty can be acted on.
  ghost predicate Clean(d: D.Daemon)
    requires D.Valid(d)
    decreases Weight(d.queue, d.lastTime)
  {
    d.queue == []
    || (&& D.Usable(d.queue[0], d.timers)
        && (ReceiveLightens(d); Clean(D.ReceiveCommand(d))))
  }

  // The whole loop of prvProcessReceivedCommands when nothing is posted meanwhile.
  ghost function ReceiveAll(d: D.Daemon): (r: D.Daemon)
    requires D.Valid(d) && Clean(d)
    ensures D.Valid(r) && r.queue == []
    decreases Weight(d.queue, d.lastTime)
  {
    if d.queue == [] then d
    else
      ReceiveLightens(d);
      ReceiveAll(D.ReceiveCommand(d))
  }

  // The loop is a run of Received events, so what is proved of runs holds of it.
  lemma {:induction false} ReceiveAllIsARun(d: D.Daemon) returns (es: seq<TimerRuns.Event>)
    requires D.Valid(d) && Clean(d)
    ensures forall i :: 0 <= i < |es| ==> es[i] == TimerRuns.Received
    ensures TimerRuns.CodeCanRun(d, es) && TimerRuns.CodeRun(d, es) == ReceiveAll(d)
    decreases Weight(d.queue, d.lastTime)
  {
    hide D.ReceiveCommand, Weight;
    es := [];
    if d.queue != [] {
      ReceiveLightens(d);
      var rest := ReceiveAllIsARun(D.ReceiveCommand(d));
      es := [TimerRuns.Received] + rest;
      assert es[1..] == rest;
    }
  }

  class TimerService {
    var pxCurrentTimerList: seq<Item>
    var pxOverflowTimerList: seq<Item>
    var xTimerQueue: seq<D.Message>
    var xLastTime: Tick
    var timers: map<nat, D.Timer>
    var fired: seq<nat>

    ghost function State(): D.Daemon
      reads this
    {
      D.Daemon(pxCurrentTimerList, pxOverflowTimerList, xTimerQueue, xLastTime, timers, fired)
    }

    constructor (created: map<nat, D.Timer>)
      ensures State() == TimerRuns.Boot(created) && D.Valid(State())
    {
      pxCurrentTimerList, pxOverflowTimerList, xTimerQueue := [], [], [];
      xLastTime, timers, fired := 0, created, [];
    }

    // xTimerGenericCommand, for a queue that is not full.
    method GenericCommand(m: D.Message)
      modifies this`xTimerQueue
      ensures State() == D.Send(old(State()), m)
    {
      xTimerQueue := xTimerQueue + [m];
    }

    method CallBack(timer: nat)
      modifies this`fired
      ensures State() == D.CallBack(old(State()), timer)
    {
      fired := fired + [timer];
    }

    method InsertTimerInActiveList(timer: nat, xNextExpiryTime: Tick, xTimeNow: Tick, xCommandTime: Tick)
      returns (xProcessTimerNow: bool)
      requires D.Valid(State()) && timer in timers
      modifies this`pxCurrentTimerList, this`pxOverflowTimerList
      ensures var decision := D.Decide(xNextExpiryTime, xTimeNow, xCommandTime, timers[timer].period);
              && xProcessTimerNow == (decision == D.Immediately)
              && State() == D.InsertTimerInActiveList(old(State()), timer, xNextExpiryTime, decision)
    {
      xProcessTimerNow := false;
      if xNextExpiryTime <= xTimeNow {
        if Sub(xTimeNow, xCommandTime) >= timers[timer].period {
          xProcessTimerNow := true;
        } else {
          pxOverflowTimerList := Insert(pxOverflowTimerList, Item(timer, xNextExpiryTime));
        }
      } else {
        if xTimeNow < xCommandTime && xNextExpiryTime >= xCommandTime {
          xProcessTimerNow := true;
        } else {
          pxCurrentTimerList := Insert(pxCurrentTimerList, Item(timer, xNextExpiryTime));
        }
      }
    }

    method ProcessExpiredTimer(xNextExpireTime: Tick, xTimeNow: Tick)
      requires D.Valid(State()) && pxCurrentTimerList != []
      modifies this
      ensures State() == D.ProcessExpiredTimer(old(State()), xNextExpireTime, xTimeNow)
    {
      var timer := pxCurrentTimerList[0].owner;
      assert pxCurrentTimerList[0] in pxCurrentTimerList;
      pxCurrentTimerList := pxCurrentTimerList[1..];
      if timers[timer].autoReload {
        var xResult := InsertTimerInActiveList(timer, Add(xNextExpireTime, timers[timer].period), xTimeNow,
            xNextExpireTime);
        if xResult {
          GenericCommand(D.Message(D.Start, xNextExpireTime, timer));
        }
      }
      CallBack(timer);
    }

    method SwitchTimerLists()
      requires D.Valid(State())
      modifies this
      ensures State() == D.SwitchTimerLists(old(State()))
    {
      while pxCurrentTimerList != []
        invariant D.Valid(State())
        invariant D.DrainCurrentList(State()) == D.DrainCurrentList(old(State()))
        decreases Slack(pxCurrentTimerList, WRAP)
      {
        assert pxCurrentTimerList[0] in pxCurrentTimerList;
        var xNextExpireTime := pxCurrentTimerList[0].value;
        var timer := pxCurrentTimerList[0].owner;
        ghost var before := pxCurrentTimerList;
        pxCurrentTimerList := pxCurrentTimerList[1..];
        CallBack(timer);
        ghost var reload := Item(timer, Add(xNextExpireTime, timers[timer].period));
        D.DrainStep(before, reload);
        InsertMembers(pxCurrentTimerList, reload);
        if timers[timer].autoReload {
          var xReloadTime := Add(xNextExpireTime, timers[timer].period);
          if xReloadTime > xNextExpireTime {
            pxCurrentTimerList := Insert(pxCurrentTimerList, Item(timer, xReloadTime));
          } else {
            GenericCommand(D.Message(D.Start, xNextExpireTime, timer));
          }
        }
      }
      pxCurrentTimerList, pxOverflowTimerList := pxOverflowTimerList, pxCurrentTimerList;
    }

    method SampleTimeNow(xTickCount: Tick) returns (xTimeNow: Tick, switched: bool)
      requires D.Valid(State())
      modifies this
      ensures xTimeNow == xTickCount
      ensures (State(), switched) == D.SampleTimeNow(old(State()), xTickCount)
    {
      xTimeNow := xTickCount;
      if xTimeNow < xLastTime {
        SwitchTimerLists();
        switched := true;
      } else {
        switched := false;
      }
      xLastTime := xTimeNow;
    }

    method GetNextExpireTime() returns (xNextExpireTime: Tick, xListWasEmpty: bool)
      requires D.Valid(State())
      ensures xListWasEmpty == (pxCurrentTimerList == [])
      ensures xNextExpireTime == if xListWasEmpty then 0 else pxCurrentTimerList[0].value
    {
      xListWasEmpty := pxCurrentTimerList == [];
      if !xListWasEmpty {
        assert pxCurrentTimerList[0] in pxCurrentTimerList;
        xNextExpireTime := pxCurrentTimerList[0].value;
      } else {
        xNextExpireTime := 0;
      }
    }

    // One turn of prvTimerTask, and the time for which the task then waits for a command,
    // if it does.
    method ProcessTimerOrBlock(xTickCount: Tick) returns (xBlockTime: Option<Tick>)
      requires D.Valid(State())
      modifies this
      ensures State() == D.ProcessTimerOrBlock(old(State()), xTickCount)
      ensures xBlockTime == D.BlockTime(old(State()), xTickCount)
    {
      xBlockTime := None;
      var xNextExpireTime, xListWasEmpty := GetNextExpireTime();
      var xTimeNow, switched := SampleTimeNow(xTickCount);
      if !switched {
        if !xListWasEmpty && xNextExpireTime <= xTimeNow {
          ProcessExpiredTimer(xNextExpireTime, xTimeNow);
        } else {
          // vQueueWaitForMessageRestricted
          if xTimerQueue == [] {
            xBlockTime := Some(Sub(xNextExpireTime, xTimeNow));
          }
        }
      }
    }

    method ReceiveCommand(xTimeNow: Tick)
      requires D.Valid(State()) && xTimeNow == xLastTime
      requires xTimerQueue != [] && D.Usable(xTimerQueue[0], timers)
      modifies this
      ensures State() == D.ReceiveCommand(old(State()))
    {
      var xMessage := xTimerQueue[0];
      xTimerQueue := xTimerQueue[1..];
      var timer := xMessage.timer;
      RemoveMembers(pxCurrentTimerList, timer);
      RemoveMembers(pxOverflowTimerList, timer);
      if timer != D.NULL {
        pxCurrentTimerList := Remove(pxCurrentTimerList, timer);
        pxOverflowTimerList := Remove(pxOverflowTimerList, timer);
      } else {
        RemoveNobody(pxCurrentTimerList, timer);
        RemoveNobody(pxOverflowTimerList, timer);
      }
      match xMessage.command
      case Start =>
        var xResult := InsertTimerInActiveList(timer, Add(xMessage.value, timers[timer].period), xTimeNow,
            xMessage.value);
        if xResult {
          CallBack(timer);
          if timers[timer].autoReload {
            GenericCommand(D.Message(D.Start, Add(xMessage.value, timers[timer].period), timer));
          }
        }
      case Stop =>
      case ChangePeriod =>
        timers := timers[timer := timers[timer].(period := xMessage.value)];
        var ignored := InsertTimerInActiveList(timer, Add(xTimeNow, timers[timer].period), xTimeNow, xTimeNow);
      case Delete =>
        timers := timers - {timer};
      case Other =>
    }

    method ProcessReceivedCommands(xTickCount: Tick)
      requires D.Valid(State()) && Clean(D.SampleTimeNow(State(), xTickCount).0)
      modifies this
      ensures State() == ReceiveAll(D.SampleTimeNow(old(State()), xTickCount).0)
    {
      var xTimeNow, switched := SampleTimeNow(xTickCount);
      ghost var start := State();
      while xTimerQueue != []
        invariant D.Valid(State()) && Clean(State()) && xLastTime == xTimeNow
        invariant ReceiveAll(State()) == ReceiveAll(start)
        decreases Weight(xTimerQueue, xTimeNow)
      {
        ReceiveLightens(State());
        ReceiveCommand(xTimeNow);
      }
    }
  }
}
