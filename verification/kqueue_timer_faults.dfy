/** kqueue timers whose EV_ADDs fail.  The code ignores a failure in the second phase, and leaves
    pending_initial set after a failure in start. */
module KqueueTimerFaults {
  import opened KqueueTimer

  /** A failed start keeps the invariant exactly when it had nothing to do, or the timer has one phase. */
  lemma FailedStart(s: State, t: nat)
    requires Inv(s) && t in s.timers
    ensures Inv(Start(s, t, false)) <==> s.timers[t].active || !TwoPhase(s.timers[t])
  {
    var u := Start(s, t, false);
    assert Sound(s, t);
    if s.timers[t].active || !TwoPhase(s.timers[t]) {
      forall v <- u.timers ensures Sound(u, v) {
        assert Sound(s, v);
      }
    } else {
      assert !Sound(u, t);
    }
  }

  /** A failed EV_ADD of the second phase keeps the invariant exactly when the event did not begin one.
      Else the timer stays started without the entry of any phase that it is in. */
  lemma FailedSecondPhase(s: State)
    requires Inv(s) && s.batch != []
    ensures Inv(Dispatch(s, false)) <==> !s.timers[s.batch[0]].pendingInitial
    ensures s.timers[s.batch[0]].pendingInitial ==>
              var u := Dispatch(s, false);
              u.timers[s.batch[0]].active && !u.timers[s.batch[0]].pendingInitial
              && (s.batch[0] in u.kernel ==> u.kernel[s.batch[0]].oneShot)
  {
    var t := s.batch[0];
    assert Sound(s, t);
    if s.timers[t].pendingInitial {
      assert !Sound(Dispatch(s, false), t);
    } else {
      assert Dispatch(s, false) == Dispatch(s, true);
      DispatchKeepsInv(s);
    }
  }

  /* ---------------- runs with failing EV_ADDs ---------------- */

  /** The guards, except that every EV_ADD may fail. */
  ghost predicate MayFail(s: State, step: Step)
  {
    match step
    case StartStep(t, _) => t in s.timers
    case DispatchStep(_) => s.batch != []
    case _ => Enabled(s, step)
  }

  ghost function Then(s: State, step: Step): State
    requires MayFail(s, step)
  {
    match step
    case StartStep(t, ok) => Start(s, t, ok)
    case DispatchStep(ok) => Dispatch(s, ok)
    case _ => Next(s, step)
  }

  ghost predicate IsFailingRun(run: seq<State>, steps: seq<Step>)
  {
    && |run| == |steps| + 1 && run[0] == START
    && forall i :: 0 <= i < |steps| ==> MayFail(run[i], steps[i]) && run[i + 1] == Then(run[i], steps[i])
  }

  /** The timer is not registered, but the kernel has an entry for it and will fire it. */
  predicate Rogue(s: State, t: nat)
  {
    t in s.timers && !s.timers[t].registered && t in s.kernel
  }

  /** The timer is not registered, but its next event will be taken for that of a first phase. */
  predicate Primed(s: State, t: nat)
  {
    t in s.timers && !s.timers[t].registered && s.timers[t].pendingInitial
  }

  /** What survives failures. */
  ghost predicate Numbered(s: State)
  {
    && (forall t <- s.timers :: t < s.nextTimer && s.timers[t].active == s.timers[t].registered)
    && (forall t <- s.timers :: Primed(s, t) ==> TwoPhase(s.timers[t]))
    && (forall t <- s.timers :: Rogue(s, t) ==> !s.kernel[t].oneShot)
    && (forall t <- s.kernel :: t < s.nextTimer)
  }

  lemma ThenKeepsNumbered(s: State, step: Step)
    requires Numbered(s) && MayFail(s, step)
    ensures Numbered(Then(s, step))
  {
    match step
    case CreateStep(_, _, _) =>
    case StartStep(t, _) =>
    case StopStep(t) => StopIs(s, t);
    case DestroyStep(t) => StopIs(s, t);
    case WaitStep(_) =>
    case DispatchStep(_) =>
  }

  lemma StopIs(s: State, t: nat)
    requires Numbered(s) && t in s.timers
    ensures var u := Stop(s, t);
            if s.timers[t].registered then
              u == s.(timers := s.timers[t := s.timers[t].(active := false, registered := false, pendingInitial := false)],
                      kernel := s.kernel - {t})
            else u == s
  {
  }

  /** Step j starts timer t successfully. */
  predicate Starts(step: Step, t: nat) { step == StartStep(t, true) }

  /** In state s this step fails to start the two-phase timer t. */
  predicate FailsToStart(s: State, step: Step, t: nat)
  {
    step == StartStep(t, false) && t in s.timers && !s.timers[t].active && TwoPhase(s.timers[t])
  }

  /** In state s this step dispatches an event of timer t. */
  predicate Dispatches(s: State, step: Step, t: nat)
  {
    step.DispatchStep? && s.batch != [] && s.batch[0] == t
  }

  /** A failed start primes the timer, until its next event is dispatched or it is started. */
  lemma PrimedStep(s: State, step: Step, t: nat)
    requires Numbered(s) && MayFail(s, step) && t in Then(s, step).timers
    ensures Primed(Then(s, step), t) <==>
              FailsToStart(s, step, t) || (Primed(s, t) && !Starts(step, t) && !Dispatches(s, step, t))
  {
    match step
    case CreateStep(_, _, _) =>
    case StartStep(v, _) =>
    case StopStep(v) => StopIs(s, v);
    case DestroyStep(v) => StopIs(s, v);
    case WaitStep(_) =>
    case DispatchStep(_) =>
  }

  /** The dispatch of a primed timer arms it, until it is started. */
  lemma RogueStep(s: State, step: Step, t: nat)
    requires Numbered(s) && MayFail(s, step) && t in Then(s, step).timers
    ensures Rogue(Then(s, step), t) <==>
              (Primed(s, t) && Dispatches(s, step, t) && step.ok) || (Rogue(s, t) && !Starts(step, t))
  {
    match step
    case CreateStep(_, _, _) =>
    case StartStep(v, _) =>
    case StopStep(v) => StopIs(s, v);
    case DestroyStep(v) => StopIs(s, v);
    case WaitStep(_) =>
    case DispatchStep(_) =>
  }

  lemma {:induction false} RunIsNumbered(run: seq<State>, steps: seq<Step>, n: nat)
    requires IsFailingRun(run, steps) && n < |run|
    ensures Numbered(run[n])
  {
    hide MayFail, Then, Numbered;
    if n > 0 {
      RunIsNumbered(run, steps, n - 1);
      ThenKeepsNumbered(run[n - 1], steps[n - 1]);
    } else {
      assert Numbered(START) by {
        NothingIsNumbered();
      }
    }
  }

  lemma NothingIsNumbered()
    ensures Numbered(START)
  {
  }

  /** Step i fails to start the two-phase timer t, and up to state n no event of it is dispatched and no
      start of it succeeds. */
  ghost predicate PrimedAt(run: seq<State>, steps: seq<Step>, i: nat, n: nat, t: nat)
    requires n <= |steps| < |run|
  {
    i < n && FailsToStart(run[i], steps[i], t) && forall j :: i < j < n ==> !Starts(steps[j], t) && !Dispatches(run[j], steps[j], t)
  }

  lemma {:induction false} PrimedMeansFailedStart(run: seq<State>, steps: seq<Step>, n: nat, t: nat)
    requires IsFailingRun(run, steps) && n < |run| && t in run[n].timers
    ensures Primed(run[n], t) <==> exists i :: PrimedAt(run, steps, i, n, t)
  {
    if n > 0 {
      RunIsNumbered(run, steps, n - 1);
      PrimedStep(run[n - 1], steps[n - 1], t);
      hide MayFail, Then, Numbered;
      if t in run[n - 1].timers {
        PrimedMeansFailedStart(run, steps, n - 1, t);
        PrimedGoesOn(run, steps, n - 1, n, t);
      } else {
        NewTimerIsFresh(run, steps, n, t);
      }
    }
  }

  lemma PrimedGoesOn(run: seq<State>, steps: seq<Step>, m: nat, n: nat, t: nat)
    requires m + 1 == n <= |steps| < |run|
    ensures (exists i :: PrimedAt(run, steps, i, n, t)) <==>
              || FailsToStart(run[m], steps[m], t)
              || ((exists i :: PrimedAt(run, steps, i, m, t)) && !Starts(steps[m], t) && !Dispatches(run[m], steps[m], t))
  {
    if i: nat :| PrimedAt(run, steps, i, n, t) {
      assert i < m ==> PrimedAt(run, steps, i, m, t);
    }
    if FailsToStart(run[m], steps[m], t) {
      assert PrimedAt(run, steps, m, n, t);
    }
    if i: nat :| PrimedAt(run, steps, i, m, t) {
      if !Starts(steps[m], t) && !Dispatches(run[m], steps[m], t) {
        assert PrimedAt(run, steps, i, n, t);
      }
    }
  }

  /** A timer that a step created was in no state before. */
  lemma NewTimerIsFresh(run: seq<State>, steps: seq<Step>, n: nat, t: nat)
    requires IsFailingRun(run, steps) && 0 < n < |run| && t in run[n].timers && t !in run[n - 1].timers
    ensures forall i :: 0 <= i < n ==> t !in run[i].timers
  {
    NewIsNext(run, steps, n, t);
    forall i | 0 <= i < n ensures t !in run[i].timers {
      RunIsNumbered(run, steps, i);
      CounterGrows(run, steps, i, n - 1);
    }
  }

  lemma NewIsNext(run: seq<State>, steps: seq<Step>, n: nat, t: nat)
    requires IsFailingRun(run, steps) && 0 < n < |run| && t in run[n].timers && t !in run[n - 1].timers
    ensures t == run[n - 1].nextTimer
  {
    RunIsNumbered(run, steps, n - 1);
    match steps[n - 1]
    case StopStep(v) => StopIs(run[n - 1], v);
    case DestroyStep(v) => StopIs(run[n - 1], v);
    case _ =>
  }

  lemma {:induction false} CounterGrows(run: seq<State>, steps: seq<Step>, i: nat, n: nat)
    requires IsFailingRun(run, steps) && i <= n < |run|
    ensures run[i].nextTimer <= run[n].nextTimer
    decreases n
  {
    if i < n {
      CounterGrows(run, steps, i, n - 1);
      CounterGrowsBy(run[n - 1], steps[n - 1]);
      hide MayFail, Then;
    }
  }

  lemma CounterGrowsBy(s: State, step: Step)
    requires MayFail(s, step)
    ensures s.nextTimer <= Then(s, step).nextTimer
  {
  }

  /** Step k dispatches, with a successful EV_ADD, an event of t that was primed by a failed start; up to
      state n no start of t succeeds. */
  ghost predicate ArmedAt(run: seq<State>, steps: seq<Step>, i: nat, k: nat, n: nat, t: nat)
    requires n <= |steps| < |run|
  {
    && k < n && PrimedAt(run, steps, i, k, t) && Dispatches(run[k], steps[k], t) && steps[k].ok
    && forall j :: k < j < n ==> !Starts(steps[j], t)
  }

  /** Over any run with failing EV_ADDs: a timer that is not registered is nevertheless armed in the kernel
      exactly when a start of this two-phase timer failed, then an event of it, which was in the batch,
      was dispatched with no successful start in between, and it has not been started since. */
  lemma {:induction false} ArmedMeansLeftover(run: seq<State>, steps: seq<Step>, n: nat, t: nat)
    requires IsFailingRun(run, steps) && n < |run| && t in run[n].timers
    ensures Rogue(run[n], t) <==> exists i, k :: ArmedAt(run, steps, i, k, n, t)
  {
    if n > 0 {
      RunIsNumbered(run, steps, n - 1);
      RogueStep(run[n - 1], steps[n - 1], t);
      hide MayFail, Then, Numbered, PrimedAt, ArmedAt;
      if t in run[n - 1].timers {
        PrimedMeansFailedStart(run, steps, n - 1, t);
        ArmedMeansLeftover(run, steps, n - 1, t);
        ArmedGoesOn(run, steps, n - 1, n, t);
      } else {
        FreshIsNotArmed(run, steps, n, t);
      }
    } else {
      NothingIsArmed(run, steps, t);
    }
  }

  lemma NothingIsArmed(run: seq<State>, steps: seq<Step>, t: nat)
    requires |steps| < |run|
    ensures forall i, k :: !ArmedAt(run, steps, i, k, 0, t)
  {
  }

  lemma FreshIsNotArmed(run: seq<State>, steps: seq<Step>, n: nat, t: nat)
    requires IsFailingRun(run, steps) && 0 < n < |run| && t in run[n].timers && t !in run[n - 1].timers
    ensures forall i, k :: !ArmedAt(run, steps, i, k, n, t)
    ensures !Primed(run[n - 1], t) && !Rogue(run[n - 1], t)
  {
    NewTimerIsFresh(run, steps, n, t);
  }

  lemma ArmedGoesOn(run: seq<State>, steps: seq<Step>, m: nat, n: nat, t: nat)
    requires m + 1 == n <= |steps| < |run|
    ensures (exists i, k :: ArmedAt(run, steps, i, k, n, t)) <==>
              || ((exists i :: PrimedAt(run, steps, i, m, t)) && Dispatches(run[m], steps[m], t) && steps[m].ok)
              || ((exists i, k :: ArmedAt(run, steps, i, k, m, t)) && !Starts(steps[m], t))
  {
    hide PrimedAt;
    if i: nat, k: nat :| ArmedAt(run, steps, i, k, n, t) {
      if k < m {
        assert ArmedAt(run, steps, i, k, m, t);
      } else {
        assert PrimedAt(run, steps, i, m, t);
      }
    }
    if i: nat :| PrimedAt(run, steps, i, m, t) {
      if Dispatches(run[m], steps[m], t) && steps[m].ok {
        assert ArmedAt(run, steps, i, m, n, t);
      }
    }
    if i: nat, k: nat :| ArmedAt(run, steps, i, k, m, t) {
      if !Starts(steps[m], t) {
        assert ArmedAt(run, steps, i, k, n, t);
      }
    }
  }
}
