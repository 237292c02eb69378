/** Timers on kqueue (timer.c with the EVFILT_TIMER parts of kqueue.c).  A repeating timer whose first
    delay differs from its interval starts as a one-shot entry, and the dispatcher replaces that entry
    by a repeating one when its first event is processed.

    The events that kevent returned and that are not yet dispatched form the batch.  What a callback
    does with timers is taken as further steps between two dispatches. */
module KqueueTimer {
  import opened Growable

  /** pd_timer_t and pd_kqueue_timer_data_t */
  datatype Timer = Timer(timeout: nat, interval: nat, active: bool, registered: bool, pendingInitial: bool)

  /** The kernel's entry for a timer: its period, and EV_ONESHOT. */
  datatype Entry = Entry(ms: nat, oneShot: bool)

  /** `list` is the part of the loop's watcher list that holds the placeholder watchers, named by their
      timers; `calls` logs the callbacks; `touchedDead` records a dispatch through a freed timer. */
  datatype State = State(timers: map<nat, Timer>, nextTimer: nat, kernel: map<nat, Entry>,
                         batch: seq<nat>, list: seq<nat>, calls: seq<nat>, touchedDead: bool)

  const START := State(map[], 0, map[], [], [], [], false)

  predicate TwoPhase(x: Timer) { x.interval > 0 && x.timeout != x.interval && x.timeout != 0 }

  function Positive(ms: nat): nat { if ms == 0 then 1 else ms }

  /** The entry that start adds. */
  function FirstEntry(x: Timer): Entry
  {
    if TwoPhase(x) then Entry(Positive(x.timeout), true)
    else Entry(Positive(if x.interval > 0 then x.interval else x.timeout), false)
  }

  /** pd_timer_create; a failed allocation is undone. */
  function Create(s: State, timeout: nat, interval: nat, mem: bool): State
  {
    if !mem then s
    else s.(timers := s.timers[s.nextTimer := Timer(timeout, interval, false, false, false)],
            nextTimer := s.nextTimer + 1, list := s.list + [s.nextTimer])
  }

  /** pd_timer_start; `ok` is the outcome of the EV_ADD. */
  function Start(s: State, t: nat, ok: bool): State
    requires t in s.timers
  {
    var x := s.timers[t];
    if x.active then s
    else
      var y := x.(pendingInitial := TwoPhase(x), active := ok, registered := x.registered || ok);
      s.(timers := s.timers[t := y], kernel := if ok then s.kernel[t := FirstEntry(x)] else s.kernel)
  }

  /** kqueue_timer_stop; the error of an EV_DELETE is ignored. */
  function StopBackend(s: State, t: nat): State
    requires t in s.timers
  {
    var x := s.timers[t];
    if !x.registered then s
    else s.(timers := s.timers[t := x.(registered := false, pendingInitial := false)], kernel := s.kernel - {t})
  }

  /** pd_timer_stop */
  function Stop(s: State, t: nat): State
    requires t in s.timers
  {
    if !s.timers[t].active then s
    else StopBackend(s.(timers := s.timers[t := s.timers[t].(active := false)]), t)
  }

  /** pd_timer_destroy */
  function Destroy(s: State, t: nat): State
    requires t in s.timers
  {
    var s1 := Stop(s, t);
    s1.(timers := s1.timers - {t}, list := Without(s1.list, t))
  }

  /** kevent returns events of different entries; retrieving the event of an EV_ONESHOT entry deletes it. */
  function Wait(s: State, events: seq<nat>): State
  {
    s.(batch := events, kernel := map t | t in s.kernel && !(t in events && s.kernel[t].oneShot) :: s.kernel[t])
  }

  /** One EVFILT_TIMER event; `ok` is the outcome of the EV_ADD that starts the second phase. */
  function Dispatch(s: State, ok: bool): State
    requires s.batch != []
  {
    var t, rest := s.batch[0], s.(batch := s.batch[1..]);
    if t !in s.timers then rest.(touchedDead := true)
    else
      var x := s.timers[t];
      var called := rest.(calls := s.calls + [t]);
      if !x.pendingInitial then called
      else called.(timers := s.timers[t := x.(pendingInitial := false)],
                   kernel := if ok then s.kernel[t := Entry(x.interval, false)] else s.kernel)
  }

  datatype Step =
    | CreateStep(timeout: nat, interval: nat, mem: bool)
    | StartStep(t: nat, ok: bool)
    | StopStep(t: nat)
    | DestroyStep(t: nat)
    | WaitStep(events: seq<nat>)
    | DispatchStep(ok: bool)

  ghost predicate Sampled(s: State, events: seq<nat>)
  {
    NoDuplicates(events) && forall t <- events :: t in s.kernel
  }

  /** EV_ADDs succeed, and a timer with an undispatched event is not destroyed. */
  ghost predicate Enabled(s: State, step: Step)
  {
    match step
    case CreateStep(_, _, _) => true
    case StartStep(t, ok) => t in s.timers && ok
    case StopStep(t) => t in s.timers
    case DestroyStep(t) => t in s.timers && t !in s.batch
    case WaitStep(events) => s.batch == [] && Sampled(s, events)
    case DispatchStep(ok) => s.batch != [] && ok
  }

  ghost function Next(s: State, step: Step): State
    requires Enabled(s, step)
  {
    match step
    case CreateStep(timeout, interval, mem) => Create(s, timeout, interval, mem)
    case StartStep(t, ok) => Start(s, t, ok)
    case StopStep(t) => Stop(s, t)
    case DestroyStep(t) => Destroy(s, t)
    case WaitStep(events) => Wait(s, events)
    case DispatchStep(ok) => Dispatch(s, ok)
  }

  /* ---------------- the invariant ---------------- */

  /** A stopped timer has no kernel entry and awaits no second phase.  A started one is in its first
      phase, with the one-shot entry in the kernel or its event in the batch, or it has its repeating
      entry in the kernel. */
  predicate Sound(s: State, t: nat)
    requires t in s.timers
  {
    var x := s.timers[t];
    && x.active == x.registered
    && (!x.registered ==> t !in s.kernel && !x.pendingInitial)
    && (x.pendingInitial ==> TwoPhase(x) && (if t in s.kernel then s.kernel[t] == Entry(x.timeout, true) else t in s.batch))
    && (x.registered && !x.pendingInitial ==> t in s.kernel && s.kernel[t] == Steady(x))
  }

  /** The entry that a started timer has from its second phase on. */
  function Steady(x: Timer): Entry { Entry(Positive(if x.interval > 0 then x.interval else x.timeout), false) }

  ghost predicate Inv(s: State)
  {
    && (forall t <- s.timers :: Sound(s, t) && t < s.nextTimer)
    && (forall t <- s.kernel :: t in s.timers)
    && (forall t <- s.batch :: t in s.timers) && NoDuplicates(s.batch)
    && NoDuplicates(s.list) && (forall t :: t in s.list <==> t in s.timers)
    && (forall t <- s.calls :: t < s.nextTimer)
    && !s.touchedDead
  }

  lemma StopKeepsInv(s: State, t: nat)
    requires Inv(s) && t in s.timers
    ensures Inv(Stop(s, t)) && Stop(s, t) == s.(timers := Stop(s, t).timers, kernel := s.kernel - {t})
    ensures Stop(s, t).timers == s.timers[t := s.timers[t].(active := false, registered := false, pendingInitial := false)]
  {
    assert Sound(s, t);
    var u := Stop(s, t);
    forall v <- u.timers ensures Sound(u, v) {
      assert Sound(s, v);
    }
    if !s.timers[t].registered {
      assert s.kernel - {t} == s.kernel;
    }
  }

  lemma WaitKeepsInv(s: State, events: seq<nat>)
    requires Inv(s) && s.batch == [] && Sampled(s, events)
    ensures Inv(Wait(s, events))
  {
    var u := Wait(s, events);
    forall t <- u.timers ensures Sound(u, t) {
      assert Sound(s, t);
    }
  }

  lemma DispatchKeepsInv(s: State)
    requires Inv(s) && s.batch != []
    ensures Inv(Dispatch(s, true))
  {
    var u, t := Dispatch(s, true), s.batch[0];
    assert forall v :: v in u.batch ==> v in s.batch;
    assert t in s.timers && !u.touchedDead && u.list == s.list && u.timers.Keys == s.timers.Keys;
    hide Dispatch;
    DispatchKeepsSound(s);
  }

  lemma DispatchKeepsSound(s: State)
    requires Inv(s) && s.batch != []
    ensures forall v <- Dispatch(s, true).timers :: Sound(Dispatch(s, true), v)
  {
    var u, t := Dispatch(s, true), s.batch[0];
    forall v <- u.timers ensures Sound(u, v) {
      assert Sound(s, v);
      if v in s.batch && v != t {
        var k :| 0 <= k < |s.batch| && s.batch[k] == v;
        assert u.batch[k - 1] == v;
      }
    }
  }

  lemma DestroyKeepsInv(s: State, t: nat)
    requires Inv(s) && t in s.timers && t !in s.batch
    ensures Inv(Destroy(s, t)) && t !in Destroy(s, t).timers && t !in Destroy(s, t).kernel
  {
    StopKeepsInv(s, t);
    var s1, u := Stop(s, t), Destroy(s, t);
    WithoutMembers(s.list, t);
    forall v <- u.timers ensures Sound(u, v) {
      assert Sound(s1, v);
    }
  }

  lemma NextKeepsInv(s: State, step: Step)
    requires Inv(s) && Enabled(s, step)
    ensures Inv(Next(s, step))
  {
    var u := Next(s, step);
    match step
    case CreateStep(_, _, _) =>
      assert s.nextTimer !in s.timers && s.nextTimer !in s.list;
      forall v <- u.timers ensures Sound(u, v) {
        assert v in s.timers ==> Sound(s, v);
      }
    case StartStep(t, _) =>
      forall v <- u.timers ensures Sound(u, v) {
        assert Sound(s, v);
      }
    case StopStep(t) => StopKeepsInv(s, t);
    case DestroyStep(t) => DestroyKeepsInv(s, t);
    case WaitStep(events) => WaitKeepsInv(s, events);
    case DispatchStep(_) => DispatchKeepsInv(s);
  }

  /* ---------------- runs ---------------- */

  ghost predicate IsRun(run: seq<State>, steps: seq<Step>)
  {
    && |run| == |steps| + 1 && run[0] == START
    && forall i :: 0 <= i < |steps| ==> Enabled(run[i], steps[i]) && run[i + 1] == Next(run[i], steps[i])
  }

  lemma {:induction false} RunKeepsInv(run: seq<State>, steps: seq<Step>, n: nat)
    requires IsRun(run, steps) && n < |run|
    ensures Inv(run[n])
  {
    if n > 0 {
      RunKeepsInv(run, steps, n - 1);
      NextKeepsInv(run[n - 1], steps[n - 1]);
    }
  }

  /** In every reachable state a timer that is not registered has no kernel entry, a destroyed one
      neither, and a started one is not lost: it has the entry of its phase, or the event that will
      bring its second phase is still in the batch. */
  lemma TimersAlways(run: seq<State>, steps: seq<Step>, n: nat)
    requires IsRun(run, steps) && n < |run|
    ensures var s := run[n];
            && (forall t <- s.kernel :: t in s.timers && s.timers[t].registered)
            && (forall t <- s.timers | s.timers[t].active ::
                  if s.timers[t].pendingInitial then t in s.batch || (t in s.kernel && s.kernel[t] == Entry(s.timers[t].timeout, true))
                  else t in s.kernel && s.kernel[t] == Steady(s.timers[t]))
            && !s.touchedDead
  {
    RunKeepsInv(run, steps, n);
    var s := run[n];
    assert forall t <- s.timers :: Sound(s, t);
  }

  /** The event of a timer that was stopped after kevent returned it: the callback runs once more, but
      the timer is not armed again. */
  lemma LeftoverDoesNotRearm(s: State, ok: bool)
    requires Inv(s) && s.batch != [] && !s.timers[s.batch[0]].active
    ensures Dispatch(s, ok) == s.(batch := s.batch[1..], calls := s.calls + [s.batch[0]])
    ensures s.batch[0] !in Dispatch(s, ok).kernel
  {
    assert Sound(s, s.batch[0]);
  }

  function Count(calls: seq<nat>, t: nat): nat { multiset(calls)[t] }

  /** From state i to state n no step starts timer t. */
  predicate NotStarted(steps: seq<Step>, t: nat, i: nat, n: nat)
    requires i <= n <= |steps|
  {
    forall k :: i <= k < n ==> !(steps[k].StartStep? && steps[k].t == t)
  }

  predicate Idle(s: State, t: nat)
  {
    t < s.nextTimer && (t in s.timers ==> !s.timers[t].active)
  }

  lemma StepKeepsIdle(s: State, step: Step, t: nat)
    requires Inv(s) && Enabled(s, step) && Idle(s, t) && !(step.StartStep? && step.t == t)
    ensures var u := Next(s, step);
            && Idle(u, t) && Count(u.calls, t) + Count(u.batch, t) <= Count(s.calls, t) + Count(s.batch, t)
  {
    match step
    case DispatchStep(_) => DispatchKeepsIdle(s, t);
    case WaitStep(events) => WaitKeepsIdle(s, events, t);
    case StopStep(v) => StopKeepsInv(s, v);
    case DestroyStep(v) => StopKeepsInv(s, v);
    case CreateStep(_, _, _) =>
    case StartStep(_, _) =>
  }

  lemma DispatchKeepsIdle(s: State, t: nat)
    requires Inv(s) && s.batch != [] && Idle(s, t)
    ensures var u := Dispatch(s, true);
            && Idle(u, t) && Count(u.calls, t) + Count(u.batch, t) <= Count(s.calls, t) + Count(s.batch, t)
  {
    assert s.batch == [s.batch[0]] + s.batch[1..];
    hide Inv;
  }

  lemma WaitKeepsIdle(s: State, events: seq<nat>, t: nat)
    requires Inv(s) && s.batch == [] && Sampled(s, events) && Idle(s, t)
    ensures var u := Wait(s, events);
            && Idle(u, t) && Count(u.calls, t) + Count(u.batch, t) <= Count(s.calls, t) + Count(s.batch, t)
  {
    assert t in s.timers ==> Sound(s, t);
    assert t !in s.kernel;
    hide Inv;
    assert t !in events;
  }

  lemma DistinctCount(s: seq<nat>, t: nat)
    requires NoDuplicates(s)
    ensures Count(s, t) == if t in s then 1 else 0
    decreases |s|
  {
    if s != [] {
      assert s == [s[0]] + s[1..];
      DistinctCount(s[1..], t);
    }
  }

  lemma {:induction false} IdleStays(run: seq<State>, steps: seq<Step>, t: nat, i: nat, n: nat)
    requires IsRun(run, steps) && i <= n < |run| && NotStarted(steps, t, i, n) && Idle(run[i], t)
    ensures Idle(run[n], t)
    ensures Count(run[n].calls, t) + Count(run[n].batch, t) <= Count(run[i].calls, t) + Count(run[i].batch, t)
    decreases n
  {
    if i < n {
      IdleStays(run, steps, t, i, n - 1);
      RunKeepsInv(run, steps, n - 1);
      StepKeepsIdle(run[n - 1], steps[n - 1], t);
    }
  }

  /** A stopped timer, until it is started again, runs its callback at most once more, and not at all
      when no event of it was in the batch; it stays out of the kernel.  A destroyed timer is silent. */
  lemma StoppedTimerIsSilent(run: seq<State>, steps: seq<Step>, t: nat, i: nat, n: nat)
    requires IsRun(run, steps) && i <= n < |run| && NotStarted(steps, t, i, n)
    requires t < run[i].nextTimer && (t in run[i].timers ==> !run[i].timers[t].active)
    ensures t !in run[n].kernel
    ensures Count(run[n].calls, t) <= Count(run[i].calls, t) + (if t in run[i].batch then 1 else 0)
    ensures t !in run[i].timers ==> Count(run[n].calls, t) <= Count(run[i].calls, t)
  {
    IdleStays(run, steps, t, i, n);
    RunKeepsInv(run, steps, i);
    RunKeepsInv(run, steps, n);
    DistinctCount(run[i].batch, t);
    assert t in run[n].timers ==> Sound(run[n], t);
  }

  /* ---------------- where the code falls short ---------------- */

  /** The struct is freed at once: destroying a timer keeps the invariant exactly when no event of it,
      at whatever position, is still in the batch. */
  lemma DestroyedInBatch(s: State, t: nat)
    requires Inv(s) && t in s.timers
    ensures Inv(Destroy(s, t)) <==> t !in s.batch
  {
    StopKeepsInv(s, t);
    if t !in s.batch {
      DestroyKeepsInv(s, t);
    } else {
      assert t in Destroy(s, t).batch && t !in Destroy(s, t).timers;
    }
  }

  /** A started timer without an interval stays in the kernel when it fires: kqueue repeats it. */
  lemma OneShotStaysArmed(s: State, events: seq<nat>, t: nat)
    requires Inv(s) && s.batch == [] && Sampled(s, events) && t in s.timers && s.timers[t].active && s.timers[t].interval == 0
    ensures var u := Wait(s, events); t in u.kernel && u.kernel[t] == Entry(Positive(s.timers[t].timeout), false)
  {
    assert Sound(s, t);
  }

  /* ---------------- runs in which timers are destroyed with events in the batch ---------------- */

  /** The guards without the one on destroy. */
  ghost predicate LooselyEnabled(s: State, step: Step)
  {
    if step.DestroyStep? then step.t in s.timers else Enabled(s, step)
  }

  ghost function LooselyNext(s: State, step: Step): State
    requires LooselyEnabled(s, step)
  {
    if step.DestroyStep? then Destroy(s, step.t) else Next(s, step)
  }

  ghost predicate IsLooseRun(run: seq<State>, steps: seq<Step>)
  {
    && |run| == |steps| + 1 && run[0] == START
    && forall i :: 0 <= i < |steps| ==> LooselyEnabled(run[i], steps[i]) && run[i + 1] == LooselyNext(run[i], steps[i])
  }

  /** What remains of the invariant: the timers that live are sound, and entries name live ones; events
      name live timers or destroyed ones. */
  ghost predicate Weak(s: State)
  {
    && (forall t <- s.timers :: Sound(s, t) && t < s.nextTimer)
    && (forall t <- s.kernel :: t in s.timers)
    && (forall t <- s.batch :: t < s.nextTimer) && NoDuplicates(s.batch)
  }

  lemma StopIsWeak(s: State, t: nat)
    requires Weak(s) && t in s.timers
    ensures Weak(Stop(s, t)) && Stop(s, t) == s.(timers := Stop(s, t).timers, kernel := s.kernel - {t})
    ensures Stop(s, t).timers.Keys == s.timers.Keys
  {
    assert Sound(s, t);
    var u := Stop(s, t);
    forall v <- u.timers ensures Sound(u, v) {
      assert Sound(s, v);
    }
    if !s.timers[t].registered {
      assert s.kernel - {t} == s.kernel;
    }
  }

  lemma DestroyIsWeak(s: State, t: nat)
    requires Weak(s) && t in s.timers
    ensures Weak(Destroy(s, t)) && Destroy(s, t).timers.Keys == s.timers.Keys - {t} && Destroy(s, t).batch == s.batch
  {
    StopIsWeak(s, t);
    var s1, u := Stop(s, t), Destroy(s, t);
    forall v <- u.timers ensures Sound(u, v) {
      assert Sound(s1, v);
    }
  }

  lemma DispatchIsWeak(s: State)
    requires Weak(s) && s.batch != []
    ensures Weak(Dispatch(s, true)) && Dispatch(s, true).timers.Keys == s.timers.Keys
  {
    var u := Dispatch(s, true);
    assert forall v :: v in u.batch ==> v in s.batch;
    forall v <- u.timers ensures Sound(u, v) {
      DispatchIsSound(s, v);
    }
  }

  lemma DispatchIsSound(s: State, v: nat)
    requires Weak(s) && s.batch != [] && v in s.timers
    ensures v in Dispatch(s, true).timers && Sound(Dispatch(s, true), v)
  {
    var u, t := Dispatch(s, true), s.batch[0];
    assert Sound(s, v);
    if v in s.batch && v != t {
      var k :| 0 <= k < |s.batch| && s.batch[k] == v;
      assert u.batch[k - 1] == v;
    }
  }

  lemma LooseStepIsWeak(s: State, step: Step)
    requires Weak(s) && LooselyEnabled(s, step)
    ensures var u := LooselyNext(s, step);
            && Weak(u) && u.nextTimer >= s.nextTimer
            && (forall t <- u.timers :: t in s.timers || t >= s.nextTimer)
            && (forall t <- s.timers | t !in u.timers :: step == DestroyStep(t))
            && (u.touchedDead <==> s.touchedDead || (step.DispatchStep? && s.batch[0] !in s.timers))
  {
    var u := LooselyNext(s, step);
    match step
    case CreateStep(_, _, _) =>
      forall v <- u.timers ensures Sound(u, v) {
        assert v in s.timers ==> Sound(s, v);
      }
    case StartStep(t, _) =>
      forall v <- u.timers ensures Sound(u, v) {
        assert Sound(s, v);
      }
    case StopStep(t) => StopIsWeak(s, t);
    case DestroyStep(t) => DestroyIsWeak(s, t);
    case WaitStep(events) =>
      forall v <- u.timers ensures Sound(u, v) {
        assert Sound(s, v);
      }
    case DispatchStep(_) => DispatchIsWeak(s);
  }

  lemma {:induction false} LooseRunIsWeak(run: seq<State>, steps: seq<Step>, n: nat)
    requires IsLooseRun(run, steps) && n < |run|
    ensures Weak(run[n])
  {
    if n > 0 {
      LooseRunIsWeak(run, steps, n - 1);
      LooseStepIsWeak(run[n - 1], steps[n - 1]);
    }
  }

  /** A timer whose event is in the batch lives, or was destroyed while that event was in the batch. */
  lemma {:induction false} EventsOfDestroyed(run: seq<State>, steps: seq<Step>, n: nat, t: nat)
    requires IsLooseRun(run, steps) && n < |run| && t in run[n].batch
    ensures t in run[n].timers || exists i :: 0 <= i < n && steps[i] == DestroyStep(t) && t in run[i].batch
  {
    if n > 0 {
      var s, step := run[n - 1], steps[n - 1];
      LooseRunIsWeak(run, steps, n - 1);
      LooseStepIsWeak(s, step);
      if t in s.batch {
        EventsOfDestroyed(run, steps, n - 1, t);
      } else {
        assert step.WaitStep?;
      }
    }
  }

  lemma DestroyedNow(run: seq<State>, steps: seq<Step>, i: nat, t: nat)
    requires IsLooseRun(run, steps) && i < |steps| && steps[i] == DestroyStep(t)
    ensures t !in run[i + 1].timers && t < run[i + 1].nextTimer
  {
    LooseRunIsWeak(run, steps, i);
    assert run[i + 1] == Destroy(run[i], t);
    DestroyIsWeak(run[i], t);
    LooseStepIsWeak(run[i], steps[i]);
  }

  /** Destroyed timers do not come back. */
  lemma {:induction false} DestroyedIsGone(run: seq<State>, steps: seq<Step>, i: nat, n: nat, t: nat)
    requires IsLooseRun(run, steps) && i < n < |run| && steps[i] == DestroyStep(t)
    ensures t !in run[n].timers && t < run[n].nextTimer
    decreases n
  {
    hide LooselyNext, LooselyEnabled, Weak;
    if i < n - 1 {
      LooseRunIsWeak(run, steps, n - 1);
      LooseStepIsWeak(run[n - 1], steps[n - 1]);
      DestroyedIsGone(run, steps, i, n - 1, t);
    } else {
      DestroyedNow(run, steps, i, t);
    }
  }

  /** Over any run: the loop has gone through a freed timer exactly when some timer was destroyed with an
      event in the batch and that event was dispatched later. */
  lemma {:induction false} TouchedExactlyWhenDestroyedInBatch(run: seq<State>, steps: seq<Step>, n: nat)
    requires IsLooseRun(run, steps) && n < |run|
    ensures run[n].touchedDead <==> exists k :: 0 <= k < n && LateDispatch(run, steps, k)
  {
    if n > 0 {
      TouchedExactlyWhenDestroyedInBatch(run, steps, n - 1);
      LooseRunIsWeak(run, steps, n - 1);
      LooseStepIsWeak(run[n - 1], steps[n - 1]);
      LateDispatchTouches(run, steps, n - 1);
      hide LateDispatch, LooselyNext, LooselyEnabled, Weak;
    }
  }

  /** Step k dispatches an event whose timer was destroyed while that event was in the batch. */
  ghost predicate LateDispatch(run: seq<State>, steps: seq<Step>, k: nat)
    requires k < |steps| < |run|
  {
    && steps[k].DispatchStep? && run[k].batch != []
    && exists i :: 0 <= i < k && steps[i] == DestroyStep(run[k].batch[0]) && run[k].batch[0] in run[i].batch
  }

  lemma LateDispatchTouches(run: seq<State>, steps: seq<Step>, k: nat)
    requires IsLooseRun(run, steps) && k < |steps|
    ensures LateDispatch(run, steps, k) <==> steps[k].DispatchStep? && run[k].batch != [] && run[k].batch[0] !in run[k].timers
  {
    hide LooselyNext, LooselyEnabled;
    if steps[k].DispatchStep? && run[k].batch != [] {
      var t := run[k].batch[0];
      if t !in run[k].timers {
        EventsOfDestroyed(run, steps, k, t);
      } else if LateDispatch(run, steps, k) {
        var i :| 0 <= i < k && steps[i] == DestroyStep(t) && t in run[i].batch;
        DestroyedIsGone(run, steps, i, k, t);
      }
    }
  }
}
