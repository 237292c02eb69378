/** Timers of the IOCP backend: the Windows timer thread posts packets that carry the pd_timer_t
    pointer, and destroy must not free the timer while one of them is still to be dispatched.

    A timer's pd_timer_t and its platform_data are live while the timer is in `timers`; both are freed
    together.  `queued` is the operating system's timer queue, and `posting` the timer-thread callbacks
    that have found `destroyed` clear and have not posted yet; both may outlive the timer, and `fault`
    records any access to a freed one.  One thread at a time controls a timer.  It may be the loop
    thread, in a callback; while that destroys a timer it dispatches nothing. */
module IocpTimer {
  import opened IocpPort
  import opened Options

  /** Where the controlling thread is: in no call; waiting for the stop event; waiting for
      DeleteTimerQueueTimer; waiting for its drain-sync record; or returned from a timed-out drain. */
  datatype Phase = Idle | Stopping | Deleting | Draining(ticket: nat) | Leaked

  datatype Timer = Timer(active: bool, started: bool, destroyed: bool, phase: Phase)

  /** How far the loop thread is in dispatching a timer packet: not at one; it has read platform_data,
      and will read the flag `destroyed` through it; or it has found the flag clear, and will call back.
      Other threads take steps in between. */
  datatype LoopAt = Between | Holding(timer: nat) | Calling(timer: nat)

  /** `held` is the timer that the loop thread is in the middle of destroying. */
  datatype World = World(
    timers: map<nat, Timer>, gone: set<nat>, queued: set<nat>, posting: multiset<nat>,
    loopThread: nat, loopAt: LoopAt, held: Option<nat>, fired: seq<nat>, fault: bool)

  const START := World(map[], {}, {}, multiset{}, 0, Between, None, [], false)

  /** The loop thread can go on to the next packet. */
  predicate LoopFree(s: World) { s.loopAt.Between? && s.held.None? }

  predicate OnLoop(s: World, thread: nat) { s.loopThread != 0 && thread == s.loopThread }

  datatype Step =
    | Create(t: nat)
    | Start(t: nat, created: bool)
    | StopBegin(t: nat, deleted: bool)
    | StopEnd(t: nat)
    | CallbackEnter(t: nat)
    | CallbackPost(t: nat)
    | DestroyBegin(t: nat, thread: nat)
    | DestroyPostSync(t: nat)
    | DestroyEnd(t: nat, consumed: bool)
    | TakeTimer
    | LookAtFlag
    | CallBack

  /** The guards are the environment: a callback starts only from the timer queue, the waits for
      running callbacks return when none is left, and a drain is consumed once its record is. */
  predicate Enabled(log: seq<Packet>, done: nat, s: World, step: Step)
  {
    match step
    case Create(t) => t !in s.timers && t !in s.gone
    case Start(t, _) => t in s.timers && s.timers[t].phase.Idle?
    case StopBegin(t, _) => t in s.timers && s.timers[t].phase.Idle?
    case StopEnd(t) => t in s.timers && s.timers[t].phase.Stopping? && t !in s.posting
    case CallbackEnter(t) => t in s.queued
    case CallbackPost(t) => t in s.posting
    case DestroyBegin(t, thread) => t in s.timers && s.timers[t].phase.Idle? && (OnLoop(s, thread) ==> LoopFree(s))
    case DestroyPostSync(t) => t in s.timers && s.timers[t].phase.Deleting? && (s.timers[t].started ==> t !in s.posting)
    case DestroyEnd(t, consumed) =>
      t in s.timers && s.timers[t].phase.Draining? && (consumed ==> s.timers[t].phase.ticket < done)
    case TakeTimer => LoopFree(s) && done < |log| && log[done].TimerFired?
    case LookAtFlag => s.loopAt.Holding?
    case CallBack => s.loopAt.Calling?
  }

  function Set(s: World, t: nat, x: Timer): World { s.(timers := s.timers[t := x]) }

  /** The PD_IOCP_TIMER_KEY branch of iocp_loop_run, in three steps: read the callback and platform_data
      of the timer, read `destroyed`, call back. */
  function Take(s: World, t: nat): World
  {
    if t !in s.timers then s.(fault := true) else s.(loopAt := Holding(t))
  }

  function Look(s: World): World
    requires s.loopAt.Holding?
  {
    var t := s.loopAt.timer;
    if t !in s.timers then s.(fault := true, loopAt := Between)
    else s.(loopAt := if s.timers[t].destroyed then Between else Calling(t))
  }

  function Call(s: World): World
    requires s.loopAt.Calling?
  {
    var t := s.loopAt.timer;
    if t !in s.timers then s.(fault := true, loopAt := Between) else s.(fired := s.fired + [t], loopAt := Between)
  }

  function Next(log: seq<Packet>, done: nat, s: World, step: Step): (World, seq<Packet>)
    requires Enabled(log, done, s, step)
  {
    match step
    case Create(t) => (Set(s, t, Timer(false, false, false, Idle)), [])
    case Start(t, created) =>
      var x := s.timers[t];
      if x.active || !created then (s, [])
      else (Set(s, t, x.(active := true, started := true)).(queued := s.queued + {t}), [])
    case StopBegin(t, deleted) =>
      var x := s.timers[t];
      if !x.active then (s, [])
      else if !x.started then (Set(s, t, x.(active := false)), [])
      else if !deleted then (s, [])
      else (Set(s, t, x.(active := false, phase := Stopping)).(queued := s.queued - {t}), [])
    case StopEnd(t) => (Set(s, t, s.timers[t].(started := false, phase := Idle)), [])
    case CallbackEnter(t) =>
      if t !in s.timers then (s.(fault := true), [])
      else if s.timers[t].destroyed then (s, [])
      else (s.(posting := s.posting + multiset{t}), [])
    case CallbackPost(t) =>
      var s1 := s.(posting := s.posting - multiset{t});
      if t !in s.timers then (s1.(fault := true), []) else (s1, [TimerFired(t)])
    case DestroyBegin(t, thread) =>
      var x := s.timers[t];
      var s1 := Set(s, t, x.(destroyed := true, phase := Deleting)).(held := if OnLoop(s, thread) then Some(t) else s.held);
      if x.started then (s1.(queued := s1.queued - {t}), []) else (s1, [])
    case DestroyPostSync(t) =>
      (Set(s, t, s.timers[t].(started := false, phase := Draining(|log|))), [Sync(|log|)])
    case DestroyEnd(t, consumed) =>
      var s1 := s.(held := if s.held == Some(t) then None else s.held);
      if consumed then (s1.(timers := s.timers - {t}, gone := s.gone + {t}), [])
      else (Set(s1, t, s.timers[t].(phase := Leaked)), [])
    case TakeTimer => (Take(s, log[done].timer), [])
    case LookAtFlag => (Look(s), [])
    case CallBack => (Call(s), [])
  }

  predicate Dying(p: Phase) { p.Deleting? || p.Draining? || p.Leaked? }

  ghost predicate NonePending(log: seq<Packet>, done: nat, t: nat)
  {
    forall i :: done <= i < |log| ==> log[i] != TimerFired(t)
  }

  ghost predicate Good(log: seq<Packet>, done: nat, s: World, t: nat)
    requires t in s.timers
  {
    var x := s.timers[t];
    && (t in s.queued || t in s.posting ==> x.started)
    && (t in s.queued ==> x.phase.Idle?)
    && (x.destroyed <==> Dying(x.phase))
    && (x.phase.Draining? || x.phase.Leaked? ==> !x.started)
    && (x.phase.Draining? ==>
          && x.phase.ticket < |log|
          && (forall i :: done <= i < |log| && log[i] == TimerFired(t) ==> i < x.phase.ticket)
          && (At(s.loopAt, t) || s.held == Some(t) ==> done <= x.phase.ticket))
    && (s.held == Some(t) ==> x.phase.Deleting? || x.phase.Draining?)
  }

  /** The loop thread is in the middle of dispatching a packet of timer t. */
  predicate At(l: LoopAt, t: nat) { !l.Between? && l.timer == t }

  /** Every timer packet still to be dispatched or being dispatched, every queue entry and every running
      callback names a live timer; and nothing ever touched a freed one. */
  ghost predicate Anchored(log: seq<Packet>, done: nat, s: World)
  {
    && !s.fault && s.timers.Keys !! s.gone && done <= |log|
    && (forall t <- s.queued :: t in s.timers)
    && (forall t <- s.posting :: t in s.timers)
    && (!s.loopAt.Between? ==> s.loopAt.timer in s.timers)
    && (s.held.Some? ==> s.held.value in s.timers && s.loopAt.Between?)
    && (forall i :: done <= i < |log| && log[i].TimerFired? ==> log[i].timer in s.timers)
  }

  ghost predicate Inv(log: seq<Packet>, done: nat, s: World)
  {
    Anchored(log, done, s) && forall t <- s.timers :: Good(log, done, s, t)
  }

  /** When the drain is consumed no packet, queue entry or callback names the timer, and the loop thread
      is not in the middle of dispatching one of its packets, so freeing it is safe; a timed-out drain
      keeps it allocated instead. */
  lemma DestroyFreesLast(log: seq<Packet>, done: nat, s: World, t: nat)
    requires Inv(log, done, s) && Enabled(log, done, s, DestroyEnd(t, true))
    ensures NonePending(log, done, t) && t !in s.queued && t !in s.posting && !At(s.loopAt, t) && s.held != Some(t)
    ensures t !in Next(log, done, s, DestroyEnd(t, true)).0.timers
    ensures t in Next(log, done, s, DestroyEnd(t, false)).0.timers
  {
    assert Good(log, done, s, t);
  }

  lemma ForeignPacketKeepsInv(log: seq<Packet>, done: nat, s: World, x: Packet)
    requires Inv(log, done, s) && !x.TimerFired?
    ensures Inv(log + [x], done, s)
    ensures done < |log| && log[done] == x && LoopFree(s) ==> Inv(log, done + 1, s)
  {
    forall t <- s.timers
      ensures Good(log + [x], done, s, t)
      ensures done < |log| && log[done] == x && LoopFree(s) ==> Good(log, done + 1, s, t)
    {
      assert Good(log, done, s, t);
    }
  }

  lemma NextKeepsAnchored(log: seq<Packet>, done: nat, s: World, step: Step)
    requires Inv(log, done, s) && Enabled(log, done, s, step)
    ensures var (s', posts) := Next(log, done, s, step);
            Anchored(log + posts, done + (if step.TakeTimer? then 1 else 0), s')
  {
    if step.DestroyEnd? && step.consumed {
      DestroyFreesLast(log, done, s, step.t);
    }
    hide Good;
    if OfCallback(step) {
      CallbackKeepsAnchored(log, done, s, step);
    } else {
      assert log + [] == log;
    }
  }

  /** The steps of the loop and of the timer thread. */
  predicate OfCallback(step: Step)
  {
    step.CallbackEnter? || step.CallbackPost? || step.TakeTimer? || step.LookAtFlag? || step.CallBack?
  }

  lemma CallbackKeepsAnchored(log: seq<Packet>, done: nat, s: World, step: Step)
    requires Anchored(log, done, s) && Enabled(log, done, s, step)
    requires OfCallback(step)
    ensures var (s', posts) := Next(log, done, s, step);
            Anchored(log + posts, done + (if step.TakeTimer? then 1 else 0), s')
  {
    assert Next(log, done, s, step).0.timers == s.timers;
    assert log + [] == log;
  }

  lemma NextKeepsGood(log: seq<Packet>, done: nat, s: World, step: Step, t: nat)
    requires Anchored(log, done, s) && Enabled(log, done, s, step)
    requires t in s.timers ==> Good(log, done, s, t)
    requires t in Next(log, done, s, step).0.timers
    ensures var (s', posts) := Next(log, done, s, step);
            Good(log + posts, done + (if step.TakeTimer? then 1 else 0), s', t)
  {
    if OfCallback(step) {
      CallbackKeepsGood(log, done, s, step, t);
    } else {
      match step
      case Create(_) =>
      case Start(_, _) =>
      case StopBegin(_, _) =>
      case StopEnd(_) =>
      case DestroyBegin(_, _) =>
      case DestroyPostSync(_) =>
      case DestroyEnd(_, _) =>
    }
  }

  lemma CallbackKeepsGood(log: seq<Packet>, done: nat, s: World, step: Step, t: nat)
    requires Anchored(log, done, s) && Enabled(log, done, s, step) && OfCallback(step)
    requires t in s.timers && Good(log, done, s, t)
    ensures var (s', posts) := Next(log, done, s, step);
            t in s'.timers && Good(log + posts, done + (if step.TakeTimer? then 1 else 0), s', t)
  {
  }

  /** Timer safety is inductive: every step of the timer thread, of the controlling threads and of the
      loop keeps it, whether drains are consumed or time out. */
  lemma NextKeepsInv(log: seq<Packet>, done: nat, s: World, step: Step)
    requires Inv(log, done, s) && Enabled(log, done, s, step)
    ensures var (s', posts) := Next(log, done, s, step);
            Inv(log + posts, done + (if step.TakeTimer? then 1 else 0), s')
  {
    NextKeepsAnchored(log, done, s, step);
    forall t <- Next(log, done, s, step).0.timers
      ensures var (s', posts) := Next(log, done, s, step);
              Good(log + posts, done + (if step.TakeTimer? then 1 else 0), s', t)
    {
      assert t in s.timers ==> Good(log, done, s, t);
      NextKeepsGood(log, done, s, step, t);
    }
  }

  predicate Doomed(s: World, t: nat) { t in s.gone || (t in s.timers && s.timers[t].destroyed) }

  /** Calls of timer t made so far, and the one that the loop is about to make. */
  function Calls(s: World, t: nat): nat
  {
    multiset(s.fired)[t] + if s.loopAt == Calling(t) then 1 else 0
  }

  /** Once destroy has begun the timer stays doomed, and no dispatch calls it back any more, unless the
      loop had already found the flag clear. */
  lemma DoomedNeverFires(log: seq<Packet>, done: nat, s: World, step: Step, t: nat)
    requires Inv(log, done, s) && Enabled(log, done, s, step) && Doomed(s, t)
    ensures var s' := Next(log, done, s, step).0;
            Doomed(s', t) && Calls(s', t) == Calls(s, t)
  {
    assert t in s.timers ==> Good(log, done, s, t);
  }

  /* ---------------- destroying a timer on the loop thread ---------------- */

  /** The port as the timers see it: the posting order and how far the loop has got. */
  datatype Scene = Scene(log: seq<Packet>, done: nat, world: World)

  /** A step of the timers; a packet of another kind that anyone posts, or that the loop dispatches when it
      is free to; or the loop thread entering the loop. */
  datatype Turn = Own(step: Step) | Posted(packet: Packet) | Taken | Entered(thread: nat)

  predicate MayTurn(s: Scene, turn: Turn)
  {
    match turn
    case Own(step) => Enabled(s.log, s.done, s.world, step)
    case Posted(x) => !x.TimerFired?
    case Taken => s.done < |s.log| && !s.log[s.done].TimerFired? && LoopFree(s.world)
    case Entered(thread) => (s.world.loopThread == 0 || s.world.loopThread == thread) && LoopFree(s.world)
  }

  function Turned(s: Scene, turn: Turn): Scene
    requires MayTurn(s, turn)
  {
    match turn
    case Own(step) =>
      var (world, posts) := Next(s.log, s.done, s.world, step);
      Scene(s.log + posts, s.done + (if step.TakeTimer? then 1 else 0), world)
    case Posted(x) => s.(log := s.log + [x])
    case Taken => s.(done := s.done + 1)
    case Entered(thread) => s.(world := s.world.(loopThread := thread))
  }

  ghost predicate SceneInv(s: Scene) { Inv(s.log, s.done, s.world) }

  lemma EnteringKeepsInv(log: seq<Packet>, done: nat, s: World, thread: nat)
    requires Inv(log, done, s)
    ensures Inv(log, done, s.(loopThread := thread))
  {
    var u := s.(loopThread := thread);
    forall t <- u.timers ensures Good(log, done, u, t) {
      assert Good(log, done, s, t);
    }
  }

  lemma TurnKeepsInv(s: Scene, turn: Turn)
    requires SceneInv(s) && MayTurn(s, turn)
    ensures SceneInv(Turned(s, turn))
  {
    match turn
    case Own(step) => NextKeepsInv(s.log, s.done, s.world, step);
    case Posted(x) => ForeignPacketKeepsInv(s.log, s.done, s.world, x);
    case Taken => ForeignPacketKeepsInv(s.log, s.done, s.world, s.log[s.done]);
    case Entered(thread) => EnteringKeepsInv(s.log, s.done, s.world, thread);
  }

  /** The loop thread is destroying timer t, or has done so in vain. */
  predicate Stuck(s: World, t: nat)
  {
    t in s.timers && s.timers[t].destroyed && (s.held == Some(t) || s.timers[t].phase.Leaked?)
  }

  /** A drain that the loop thread itself waits for is not consumed, so the destroy times out. */
  lemma StuckStays(s: Scene, turn: Turn, t: nat)
    requires SceneInv(s) && MayTurn(s, turn) && Stuck(s.world, t)
    ensures Stuck(Turned(s, turn).world, t)
    ensures turn != Own(DestroyEnd(t, true))
  {
    assert Good(s.log, s.done, s.world, t);
    hide Good, Enabled, Next;
    if turn.Own? {
      StuckStep(s.log, s.done, s.world, turn.step, t);
    }
  }

  lemma StuckStep(log: seq<Packet>, done: nat, s: World, step: Step, t: nat)
    requires Enabled(log, done, s, step) && Stuck(s, t) && Dying(s.timers[t].phase)
    requires s.held == Some(t) && s.timers[t].phase.Draining? ==> done <= s.timers[t].phase.ticket
    ensures Stuck(Next(log, done, s, step).0, t) && step != DestroyEnd(t, true)
  {
  }

  ghost predicate IsSceneRun(run: seq<Scene>, turns: seq<Turn>)
  {
    && |run| == |turns| + 1 && run[0] == Scene([], 0, START)
    && forall i :: 0 <= i < |turns| ==> MayTurn(run[i], turns[i]) && run[i + 1] == Turned(run[i], turns[i])
  }

  lemma {:induction false} SceneRunKeepsInv(run: seq<Scene>, turns: seq<Turn>, n: nat)
    requires IsSceneRun(run, turns) && n < |run|
    ensures SceneInv(run[n])
  {
    if n > 0 {
      SceneRunKeepsInv(run, turns, n - 1);
      TurnKeepsInv(run[n - 1], turns[n - 1]);
    }
  }

  /** Destroying a timer on the loop thread, as in its own callback, leaks it.  The drain is one that only
      the loop thread could consume, so from then on no drain of that timer ever is, and the timer is
      allocated in every later state of the run. */
  lemma {:induction false} DestroyOnLoopLeaks(run: seq<Scene>, turns: seq<Turn>, i: nat, n: nat, t: nat, thread: nat)
    requires IsSceneRun(run, turns) && i < n < |run|
    requires turns[i] == Own(DestroyBegin(t, thread)) && OnLoop(run[i].world, thread)
    ensures Stuck(run[n].world, t) && t in run[n].world.timers
    ensures n < |turns| ==> turns[n] != Own(DestroyEnd(t, true))
    decreases n
  {
    hide MayTurn, Turned, SceneInv;
    SceneRunKeepsInv(run, turns, n);
    if i < n - 1 {
      DestroyOnLoopLeaks(run, turns, i, n - 1, t, thread);
      SceneRunKeepsInv(run, turns, n - 1);
      StuckStays(run[n - 1], turns[n - 1], t);
    } else {
      BeginsStuck(run[i], t, thread);
    }
    if n < |turns| {
      StuckStays(run[n], turns[n], t);
    }
  }

  lemma BeginsStuck(s: Scene, t: nat, thread: nat)
    requires MayTurn(s, Own(DestroyBegin(t, thread))) && OnLoop(s.world, thread)
    ensures Stuck(Turned(s, Own(DestroyBegin(t, thread))).world, t)
  {
  }
}
