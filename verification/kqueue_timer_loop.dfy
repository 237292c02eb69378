/** The kqueue timers in place: the fields that timer.c and kqueue.c update, method by method. */
module KqueueTimerLoop {
  import opened Arrays
  import opened KqueueTimer

  /** The steps in order, each allowed when it is taken. */
  ghost predicate AllEnabled(s: State, steps: seq<Step>)
    decreases |steps|
  {
    steps == [] || (Enabled(s, steps[0]) && AllEnabled(Next(s, steps[0]), steps[1..]))
  }

  ghost function NextAll(s: State, steps: seq<Step>): State
    requires AllEnabled(s, steps)
    decreases |steps|
  {
    if steps == [] then s else NextAll(Next(s, steps[0]), steps[1..])
  }

  /** A callback creates, starts, stops and destroys timers; it does not run the loop. */
  predicate Callback(script: seq<Step>)
  {
    forall step <- script :: !step.WaitStep? && !step.DispatchStep?
  }

  /** The steps of a batch: each event's dispatch is followed by what its callback does. */
  function Batch(scripts: seq<seq<Step>>): seq<Step>
  {
    if scripts == [] then [] else [DispatchStep(true)] + scripts[0] + Batch(scripts[1..])
  }

  lemma BatchHead(s: State, scripts: seq<seq<Step>>, k: nat)
    requires k < |scripts| && AllEnabled(s, Batch(scripts[k..]))
    ensures Enabled(s, DispatchStep(true))
    ensures var rest := scripts[k] + Batch(scripts[k + 1..]);
            && AllEnabled(Dispatch(s, true), rest) && NextAll(Dispatch(s, true), rest) == NextAll(s, Batch(scripts[k..]))
  {
    assert scripts[k..][1..] == scripts[k + 1..];
    assert Batch(scripts[k..]) == [DispatchStep(true)] + (scripts[k] + Batch(scripts[k + 1..]));
    assert Batch(scripts[k..])[1..] == scripts[k] + Batch(scripts[k + 1..]);
  }

  lemma {:induction false} AllKeepInv(s: State, steps: seq<Step>)
    requires Inv(s) && AllEnabled(s, steps)
    ensures Inv(NextAll(s, steps))
    decreases |steps|
  {
    if steps != [] {
      NextKeepsInv(s, steps[0]);
      AllKeepInv(Next(s, steps[0]), steps[1..]);
    }
  }

  lemma CallbackStepKeeps(s: State, step: Step)
    requires Inv(s) && Enabled(s, step) && !step.WaitStep? && !step.DispatchStep?
    ensures Next(s, step).calls == s.calls && Next(s, step).batch == s.batch && Inv(Next(s, step))
  {
    NextKeepsInv(s, step);
    hide Inv;
  }

  lemma LiveHeadIsCalled(s: State)
    requires Inv(s) && s.batch != []
    ensures Dispatch(s, true).calls == s.calls + [s.batch[0]] && Dispatch(s, true).batch == s.batch[1..] && Inv(Dispatch(s, true))
  {
    DispatchKeepsInv(s);
  }

  /** However the callbacks in a batch create, start, stop and destroy timers, as long as none destroys a
      timer of a later event, each event calls its timer back exactly once, in order: the rest of a
      script, followed by the rest of the batch. */
  lemma {:induction false} BatchCallsEachEvent(s: State, script: seq<Step>, scripts: seq<seq<Step>>)
    requires Inv(s) && Callback(script) && (forall x <- scripts :: Callback(x)) && |scripts| == |s.batch|
    requires AllEnabled(s, script + Batch(scripts))
    ensures NextAll(s, script + Batch(scripts)).calls == s.calls + s.batch
    decreases |scripts|, |script|
  {
    hide Inv, Enabled, Next, Dispatch;
    if script != [] {
      assert (script + Batch(scripts))[1..] == script[1..] + Batch(scripts);
      CallbackStepKeeps(s, script[0]);
      BatchCallsEachEvent(Next(s, script[0]), script[1..], scripts);
    } else {
      assert script + Batch(scripts) == Batch(scripts);
      if scripts != [] {
        assert scripts[0..] == scripts;
        BatchHead(s, scripts, 0);
        LiveHeadIsCalled(s);
        BatchCallsEachEvent(Dispatch(s, true), scripts[0], scripts[1..]);
        assert s.calls + s.batch == s.calls + [s.batch[0]] + s.batch[1..];
      }
    }
  }

  /** A wait and its batch. */
  lemma WaitThenBatch(s: State, events: seq<nat>, scripts: seq<seq<Step>>)
    requires Inv(s) && (forall x <- scripts :: Callback(x)) && |scripts| == |events|
    requires AllEnabled(s, [WaitStep(events)] + Batch(scripts))
    ensures NextAll(s, [WaitStep(events)] + Batch(scripts)).calls == s.calls + events
  {
    assert ([WaitStep(events)] + Batch(scripts))[1..] == Batch(scripts);
    NextKeepsInv(s, WaitStep(events));
    assert [] + Batch(scripts) == Batch(scripts);
    BatchCallsEachEvent(Wait(s, events), [], scripts);
  }

  class Loop {
    const list: WatcherArray
    var timers: map<nat, Timer>
    var nextTimer: nat
    var kernel: map<nat, Entry>
    var batch: seq<nat>
    ghost var calls: seq<nat>
    ghost var touchedDead: bool

    constructor ()
      ensures Valid() && fresh(Footprint()) && State() == START
    {
      list := new WatcherArray();
      timers, nextTimer, kernel, batch, calls, touchedDead := map[], 0, map[], [], [], false;
    }

    ghost predicate Valid()
      reads this, list
    {
      list.Valid()
    }

    ghost function Footprint(): set<object>
      reads this, list
    {
      {this, list, list.watchers}
    }

    ghost function State(): State
      reads this, list, list.watchers
      requires Valid()
    {
      KqueueTimer.State(timers, nextTimer, kernel, batch, list.Elements(), calls, touchedDead)
    }

    /** pd_timer_create: the struct, platform_data and the placeholder watcher are allocated one after
        the other, and the watcher goes on the loop's list last. */
    method TimerCreate(timeout: nat, interval: nat, timerMem: bool, dataMem: bool, watcherMem: bool, listMem: bool) returns (ok: bool)
      requires Valid()
      modifies Footprint()
      ensures Valid() && fresh(Footprint() - old(Footprint()))
      ensures State() == Create(old(State()), timeout, interval, ok)
      ensures ok <==> timerMem && dataMem && watcherMem && (old(list.count < list.watchers.Length) || listMem)
    {
      if !timerMem {
        return false;
      }
      ok := CreateBackend(timeout, interval, dataMem, watcherMem, listMem);
    }

    /** kqueue_timer_create */
    method CreateBackend(timeout: nat, interval: nat, dataMem: bool, watcherMem: bool, listMem: bool) returns (ok: bool)
      requires Valid()
      modifies Footprint()
      ensures Valid() && fresh(Footprint() - old(Footprint()))
      ensures State() == Create(old(State()), timeout, interval, ok)
      ensures ok <==> dataMem && watcherMem && (old(list.count < list.watchers.Length) || listMem)
    {
      if !dataMem {
        return false;
      }
      if !watcherMem {
        return false;
      }
      var t := nextTimer;
      ok := list.Add(t, listMem);
      if ok {
        timers, nextTimer := timers[t := Timer(timeout, interval, false, false, false)], t + 1;
      }
    }

    /** pd_timer_start */
    method TimerStart(t: nat, ok: bool)
      requires Valid() && t in timers
      modifies `timers, `kernel
      ensures Valid() && State() == Start(old(State()), t, ok)
    {
      if timers[t].active {
        return;
      }
      timers := timers[t := timers[t].(active := true)];
      var added := StartBackend(t, ok);
      if !added {
        timers := timers[t := timers[t].(active := false)];
      }
    }

    /** kqueue_timer_start: pending_initial is set before the EV_ADD is known to succeed. */
    method StartBackend(t: nat, ok: bool) returns (added: bool)
      requires Valid() && t in timers
      modifies `timers, `kernel
      ensures Valid() && added == ok && State() == old(State()).(timers := timers, kernel := kernel)
      ensures var x := old(timers[t]);
              && timers == old(timers)[t := x.(pendingInitial := TwoPhase(x), registered := x.registered || ok)]
              && kernel == if ok then old(kernel)[t := FirstEntry(x)] else old(kernel)
    {
      var x := timers[t];
      var change: Entry;
      if x.interval > 0 && x.timeout != x.interval && x.timeout != 0 {
        change := Entry(x.timeout, true);
        timers := timers[t := x.(pendingInitial := true)];
      } else {
        var value := if x.interval > 0 then x.interval else x.timeout;
        if value == 0 {
          value := 1;
        }
        change := Entry(value, false);
        timers := timers[t := x.(pendingInitial := false)];
      }
      if !ok {
        return false;
      }
      kernel := kernel[t := change];
      timers := timers[t := timers[t].(registered := true)];
      return true;
    }

    /** kqueue_timer_stop */
    method Deregister(t: nat)
      requires Valid() && t in timers
      modifies `timers, `kernel
      ensures Valid() && State() == StopBackend(old(State()), t)
    {
      if timers[t].registered {
        kernel := kernel - {t};
        timers := timers[t := timers[t].(registered := false, pendingInitial := false)];
      }
    }

    /** pd_timer_stop */
    method TimerStop(t: nat)
      requires Valid() && t in timers
      modifies `timers, `kernel
      ensures Valid() && State() == Stop(old(State()), t)
    {
      if timers[t].active {
        timers := timers[t := timers[t].(active := false)];
        Deregister(t);
      }
    }

    /** pd_timer_destroy */
    method TimerDestroy(t: nat)
      requires Valid() && t in timers
      modifies `timers, `kernel, list`count, list.watchers
      ensures Valid() && State() == Destroy(old(State()), t)
    {
      if timers[t].active {
        TimerStop(t);
      }
      timers := timers - {t};
      var _ := list.Remove(t);
    }

    /** The EVFILT_TIMER branch of kqueue_loop_run. */
    method DispatchTimer(ok: bool)
      requires Valid() && batch != []
      modifies `timers, `kernel, `batch, `calls, `touchedDead
      ensures Valid() && State() == Dispatch(old(State()), ok) && batch == old(batch)[1..]
    {
      var t := batch[0];
      batch := batch[1..];
      if t !in timers {
        touchedDead := true;
        return;
      }
      if timers[t].pendingInitial {
        timers := timers[t := timers[t].(pendingInitial := false)];
        if ok {
          kernel := kernel[t := Entry(timers[t].interval, false)];
        }
      }
      calls := calls + [t];
    }

    /** What a callback does. */
    method CallBack(script: seq<Step>, ghost rest: seq<Step>)
      requires Valid() && Callback(script) && AllEnabled(State(), script + rest)
      modifies Footprint()
      ensures Valid() && fresh(Footprint() - old(Footprint())) && batch == old(batch)
      ensures AllEnabled(State(), rest) && NextAll(State(), rest) == NextAll(old(State()), script + rest)
    {
      assert script + rest == script[0..] + rest;
      for k := 0 to |script|
        invariant Valid() && fresh(Footprint() - old(Footprint())) && batch == old(batch)
        invariant AllEnabled(State(), script[k..] + rest)
        invariant NextAll(State(), script[k..] + rest) == NextAll(old(State()), script + rest)
      {
        assert (script[k..] + rest)[1..] == script[k + 1..] + rest;
        Perform(script[k]);
      }
      assert script[|script|..] + rest == rest;
    }

    method Perform(step: Step)
      requires Valid() && Enabled(State(), step) && !step.WaitStep? && !step.DispatchStep?
      modifies Footprint()
      ensures Valid() && fresh(Footprint() - old(Footprint())) && batch == old(batch)
      ensures State() == Next(old(State()), step)
    {
      match step
      case CreateStep(timeout, interval, mem) =>
        if mem {
          var ok := TimerCreate(timeout, interval, true, true, true, true);
        }
      case StartStep(t, ok) => TimerStart(t, ok);
      case StopStep(t) => TimerStop(t);
      case DestroyStep(t) => TimerDestroy(t);
    }

    /** kevent fills the event array, and forgets the one-shot entries that it returns. */
    method Receive(events: seq<nat>)
      requires Valid()
      modifies `kernel, `batch
      ensures Valid() && State() == Wait(old(State()), events)
    {
      kernel := map t | t in kernel && !(t in events && kernel[t].oneShot) :: kernel[t];
      batch := events;
    }

    /** The loop over the events. */
    method Process(scripts: seq<seq<Step>>)
      requires Valid() && |scripts| == |batch| && (forall script <- scripts :: Callback(script))
      requires AllEnabled(State(), Batch(scripts))
      modifies Footprint()
      ensures Valid() && fresh(Footprint() - old(Footprint()))
      ensures State() == NextAll(old(State()), Batch(scripts)) && batch == []
    {
      hide Dispatch, AllEnabled, Enabled;
      ghost var events, whole := batch, NextAll(State(), Batch(scripts));
      assert Batch(scripts[0..]) == Batch(scripts);
      for k := 0 to |scripts|
        invariant Valid() && fresh(Footprint() - old(Footprint())) && batch == events[k..]
        invariant AllEnabled(State(), Batch(scripts[k..])) && NextAll(State(), Batch(scripts[k..])) == whole
      {
        BatchHead(State(), scripts, k);
        DispatchTimer(true);
        CallBack(scripts[k], Batch(scripts[k + 1..]));
      }
    }

    /** kqueue_loop_run on a wait that returns timer events: it takes the state through the steps of the
        batch, and so keeps the timer invariant, and calls back each event's timer once, in order. */
    method Run(events: seq<nat>, scripts: seq<seq<Step>>)
      requires Valid() && Inv(State()) && |scripts| == |events| && (forall script <- scripts :: Callback(script))
      requires AllEnabled(State(), [WaitStep(events)] + Batch(scripts))
      modifies Footprint()
      ensures Valid() && fresh(Footprint() - old(Footprint()))
      ensures State() == NextAll(old(State()), [WaitStep(events)] + Batch(scripts))
      ensures Inv(State()) && batch == [] && calls == old(calls) + events
    {
      WaitThenBatch(State(), events, scripts);
      AllKeepInv(State(), [WaitStep(events)] + Batch(scripts));
      assert ([WaitStep(events)] + Batch(scripts))[1..] == Batch(scripts);
      Receive(events);
      Process(scripts);
    }
  }
}
