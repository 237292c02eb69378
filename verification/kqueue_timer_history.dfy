/** kqueue timers over whole runs: what is called back, which timers are armed, and with which delays. */
module KqueueTimerHistory {
  import opened Growable
  import opened KqueueTimer
  import opened KqueueTimerFaults

  /* ---------------- the callbacks ---------------- */

  /** The timers whose events the first n steps dispatched while they were live, in that order. */
  function LiveDispatches(run: seq<State>, steps: seq<Step>, n: nat): seq<nat>
    requires n <= |steps| < |run|
  {
    if n == 0 then []
    else
      var s := run[n - 1];
      LiveDispatches(run, steps, n - 1)
      + if steps[n - 1].DispatchStep? && s.batch != [] && s.batch[0] in s.timers then [s.batch[0]] else []
  }

  /** Over any run, also one that destroys timers with events in the batch: the callbacks that ran are the
      dispatches of events of live timers, one each, in the order of the events. */
  lemma {:induction false} CallsAreLiveDispatches(run: seq<State>, steps: seq<Step>, n: nat)
    requires IsLooseRun(run, steps) && n < |run|
    ensures run[n].calls == LiveDispatches(run, steps, n)
  {
    if n > 0 {
      CallsAreLiveDispatches(run, steps, n - 1);
      LooseStepCalls(run[n - 1], steps[n - 1]);
      hide LooselyEnabled, LooselyNext;
    }
  }

  lemma LooseStepCalls(s: State, step: Step)
    requires LooselyEnabled(s, step)
    ensures LooselyNext(s, step).calls
            == s.calls + if step.DispatchStep? && s.batch != [] && s.batch[0] in s.timers then [s.batch[0]] else []
  {
  }

  /** The same when EV_ADDs fail. */
  lemma {:induction false} FailingRunCalls(run: seq<State>, steps: seq<Step>, n: nat)
    requires IsFailingRun(run, steps) && n < |run|
    ensures run[n].calls == LiveDispatches(run, steps, n)
  {
    if n > 0 {
      FailingRunCalls(run, steps, n - 1);
      FailingStepCalls(run[n - 1], steps[n - 1]);
      hide MayFail, KqueueTimerFaults.Then;
    }
  }

  lemma FailingStepCalls(s: State, step: Step)
    requires MayFail(s, step)
    ensures KqueueTimerFaults.Then(s, step).calls
            == s.calls + if step.DispatchStep? && s.batch != [] && s.batch[0] in s.timers then [s.batch[0]] else []
  {
  }

  /* ---------------- which timers are started ---------------- */

  predicate Ends(step: Step, t: nat) { step == StopStep(t) || step == DestroyStep(t) }

  predicate Active(s: State, t: nat) { t in s.timers && s.timers[t].active }

  /** Step i starts timer t, and up to state n no step stops or destroys it. */
  ghost predicate StartedAt(steps: seq<Step>, i: nat, n: nat, t: nat)
    requires n <= |steps|
  {
    i < n && steps[i] == StartStep(t, true) && forall j :: i < j < n ==> !Ends(steps[j], t)
  }

  lemma ActiveStep(s: State, step: Step, t: nat)
    requires Inv(s) && Enabled(s, step)
    ensures Active(Next(s, step), t) <==> step == StartStep(t, true) || (Active(s, t) && !Ends(step, t))
  {
    assert s.nextTimer !in s.timers;
    match step
    case StopStep(v) => StopKeepsInv(s, v);
    case DestroyStep(v) => StopKeepsInv(s, v);
    case _ =>
  }

  lemma StartedGoesOn(steps: seq<Step>, m: nat, n: nat, t: nat)
    requires m + 1 == n <= |steps|
    ensures (exists i :: StartedAt(steps, i, n, t)) <==>
              steps[m] == StartStep(t, true) || ((exists i :: StartedAt(steps, i, m, t)) && !Ends(steps[m], t))
  {
    if i: nat :| StartedAt(steps, i, n, t) {
      assert i < m ==> StartedAt(steps, i, m, t);
    }
    if steps[m] == StartStep(t, true) {
      assert StartedAt(steps, m, n, t);
    }
    if i: nat :| StartedAt(steps, i, m, t) {
      assert !Ends(steps[m], t) ==> StartedAt(steps, i, n, t);
    }
  }

  /** A timer is started exactly when it was started and since then neither stopped nor destroyed. */
  lemma {:induction false} ActiveMeansStarted(run: seq<State>, steps: seq<Step>, n: nat, t: nat)
    requires IsRun(run, steps) && n < |run|
    ensures Active(run[n], t) <==> exists i :: StartedAt(steps, i, n, t)
  {
    if n > 0 {
      RunKeepsInv(run, steps, n - 1);
      ActiveStep(run[n - 1], steps[n - 1], t);
      hide Enabled, Next, Inv, Active, StartedAt;
      ActiveMeansStarted(run, steps, n - 1, t);
      StartedGoesOn(steps, n - 1, n, t);
    }
  }

  /* ---------------- the delays ---------------- */

  /** A timer keeps the delays that it was created with. */
  lemma {:induction false} DelaysStay(run: seq<State>, steps: seq<Step>, i: nat, n: nat, t: nat)
    requires IsRun(run, steps) && i <= n < |run| && t in run[i].timers && t in run[n].timers
    ensures run[n].timers[t].timeout == run[i].timers[t].timeout && run[n].timers[t].interval == run[i].timers[t].interval
    decreases n
  {
    if i < n {
      RunKeepsInv(run, steps, i);
      RunKeepsInv(run, steps, n - 1);
      StaysIfThere(run, steps, i, n, t);
      hide Inv, Enabled, Next;
      DelaysStay(run, steps, i, n - 1, t);
    }
  }

  /** A timer that is there now and was there before was there in between. */
  lemma StaysIfThere(run: seq<State>, steps: seq<Step>, i: nat, n: nat, t: nat)
    requires IsRun(run, steps) && i < n < |run| && t in run[i].timers && t in run[n].timers
    ensures t in run[n - 1].timers
    ensures run[n].timers[t].timeout == run[n - 1].timers[t].timeout && run[n].timers[t].interval == run[n - 1].timers[t].interval
  {
    NumbersGrow(run, steps, i, n - 1);
    RunKeepsInv(run, steps, i);
    assert t < run[i].nextTimer;
    RunKeepsInv(run, steps, n - 1);
    DelayStep(run[n - 1], steps[n - 1], t);
    hide Inv, Enabled, Next;
  }

  lemma DelayStep(s: State, step: Step, t: nat)
    requires Inv(s) && Enabled(s, step) && t in Next(s, step).timers && t < s.nextTimer
    ensures t in s.timers
    ensures Next(s, step).timers[t].timeout == s.timers[t].timeout && Next(s, step).timers[t].interval == s.timers[t].interval
  {
    match step
    case StopStep(v) => StopKeepsInv(s, v);
    case DestroyStep(v) => StopKeepsInv(s, v);
    case _ =>
  }

  lemma {:induction false} NumbersGrow(run: seq<State>, steps: seq<Step>, i: nat, n: nat)
    requires IsRun(run, steps) && i <= n < |run|
    ensures run[i].nextTimer <= run[n].nextTimer
    decreases n
  {
    if i < n {
      NumbersGrow(run, steps, i, n - 1);
      NumberGrows(run[n - 1], steps[n - 1]);
      hide Enabled, Next;
    }
  }

  lemma NumberGrows(s: State, step: Step)
    requires Enabled(s, step)
    ensures s.nextTimer <= Next(s, step).nextTimer
  {
  }

  /** The delays are those asked for.  Let step i create timer t with these delays, and let it be started in
      a later state.  If both are positive and different, the kernel has its one-shot entry with the
      first delay, or that has fired and its event is in the batch, or it has the entry that repeats
      with the interval.  Else its entry repeats with the interval, or with the first delay when there is
      no interval, but at least every millisecond. */
  lemma DelaysAreThoseRequested(run: seq<State>, steps: seq<Step>, i: nat, n: nat, timeout: nat, interval: nat)
    requires IsRun(run, steps) && i < n < |run| && steps[i] == CreateStep(timeout, interval, true)
    requires Active(run[n], run[i].nextTimer)
    ensures var s, t := run[n], run[i].nextTimer;
            if timeout > 0 && interval > 0 && timeout != interval then
              || (t in s.kernel && s.kernel[t] == Entry(timeout, true))
              || (t !in s.kernel && t in s.batch)
              || (t in s.kernel && s.kernel[t] == Entry(interval, false))
            else t in s.kernel && !s.kernel[t].oneShot
                 && s.kernel[t].ms == if interval > 0 then interval else if timeout > 0 then timeout else 1
  {
    var t := run[i].nextTimer;
    RunKeepsInv(run, steps, n);
    assert Sound(run[n], t);
    assert run[i + 1] == Create(run[i], timeout, interval, true);
    DelaysStay(run, steps, i + 1, n, t);
  }

  /** Which of them it is: a start of timer t adds the entry of the first delay, and the dispatch of the
      one-shot event replaces it by the repeating one. */
  lemma PhasesFollow(s: State, t: nat)
    requires Inv(s) && t in s.timers
    ensures var x := s.timers[t];
            var two := x.timeout > 0 && x.interval > 0 && x.timeout != x.interval;
            && (!x.active ==> var u := Start(s, t, true);
                  && u.timers[t].active && t in u.kernel
                  && u.kernel[t] == if two then Entry(x.timeout, true)
                                    else Entry(if x.interval > 0 then x.interval else if x.timeout > 0 then x.timeout else 1, false))
            && (x.active && s.batch != [] && s.batch[0] == t && t !in s.kernel ==> var u := Dispatch(s, true);
                  u.timers[t].active && t in u.kernel && u.kernel[t] == Entry(x.interval, false))
            && (x.active && s.batch != [] && s.batch[0] == t && !two ==> Dispatch(s, true).kernel == s.kernel)
  {
    assert Sound(s, t);
  }
}
