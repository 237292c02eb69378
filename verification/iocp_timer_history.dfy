/** IOCP timers over whole runs: every callback of the Windows timer queue that finds the timer alive leads
    to exactly one call of the user's callback, and a timer is in the timer queue exactly while it is
    started. */
module IocpTimerHistory {
  import P = IocpPort
  import S = IocpSafety
  import T = IocpTimer
  import opened Iocp
  import opened IocpResults
  import opened Options

  /* ---------------- from the timer queue to the user's callback ---------------- */

  /** The timer's flag is clear. */
  predicate Alive(s: Sys, t: nat) { t in s.timers.timers && !s.timers.timers[t].destroyed }

  /** In state s the move enters the timer queue's callback for the live timer t. */
  predicate Enters(s: Sys, m: Move, t: nat) { m == Timer(T.CallbackEnter(t)) && Alive(s, t) }

  /** In state s the loop, having taken a packet of timer t, looks at its flag. */
  predicate LooksAt(s: Sys, m: Move, t: nat) { m == Timer(T.LookAtFlag) && s.timers.loopAt == T.Holding(t) }

  /** How often that callback was entered in the first n moves. */
  function Entries(run: seq<Sys>, moves: seq<Move>, n: nat, t: nat): nat
    requires n <= |moves| < |run|
  {
    if n == 0 then 0 else Entries(run, moves, n - 1, t) + if Enters(run[n - 1], moves[n - 1], t) then 1 else 0
  }

  /** How many packets of t the loop looked into and found the flag clear (or, if not `clear`, set). */
  function Looks(run: seq<Sys>, moves: seq<Move>, n: nat, t: nat, clear: bool): nat
    requires n <= |moves| < |run|
  {
    if n == 0 then 0
    else Looks(run, moves, n - 1, t, clear) + if LooksAt(run[n - 1], moves[n - 1], t) && Alive(run[n - 1], t) == clear then 1 else 0
  }

  /** The packets of timer t in the batch and the queue. */
  function Packets(p: P.Port, t: nat): nat { multiset(p.batch + p.queue)[P.TimerFired(t)] }

  /** Callbacks of timer t on their way to the user's: entered and not yet posted, posted and not yet taken,
      taken and not yet looked into. */
  function OnTheWay(s: Sys, t: nat): nat
  {
    s.timers.posting[t] + Packets(s.port, t) + if s.timers.loopAt == T.Holding(t) then 1 else 0
  }

  lemma PostAllPackets(p: P.Port, posts: seq<P.Packet>, t: nat)
    ensures Packets(PostAll(p, posts), t) == Packets(p, t) + multiset(posts)[P.TimerFired(t)]
  {
    assert p.batch + (p.queue + posts) == (p.batch + p.queue) + posts;
  }

  lemma MovePackets(p: P.Port, m: P.Move, t: nat)
    requires p.Enabled(m)
    ensures Packets(p.Apply(m), t) + (if m.Take? && p.batch[0] == P.TimerFired(t) then 1 else 0)
            == Packets(p, t) + if m == P.Post(P.TimerFired(t)) then 1 else 0
  {
    match m
    case Post(x) => assert p.batch + (p.queue + [x]) == (p.batch + p.queue) + [x];
    case Fetch(n) => assert p.queue[..n] + p.queue[n..] == p.batch + p.queue;
    case Take => assert p.batch + p.queue == [p.batch[0]] + (p.batch[1..] + p.queue);
  }

  lemma IoMovesNoTimer(strict: bool, s: Sys, step: S.Step, t: nat)
    requires Enabled(strict, s, Io(step))
    ensures Packets(Apply(strict, s, Io(step)).port, t) == Packets(s.port, t)
  {
    if step.DispatchIo? {
      TakesHead(s.port);
      MovePackets(s.port, P.Take, t);
    } else {
      IoPosts(strict, s.port, s.io, step);
      PostAllPackets(s.port, S.Next(strict, s.port.History(), s.port.Done(), s.io, step).1, t);
      hide S.Enabled, S.Next;
    }
  }

  /** What one step of the timers does with the callbacks of t: those entered and not posted, ... */
  lemma StepPosts(log: seq<P.Packet>, done: nat, u: T.World, step: T.Step, t: nat)
    requires T.Enabled(log, done, u, step) && forall v <- u.posting :: v in u.timers
    ensures var (u', posts) := T.Next(log, done, u, step);
            var enters := step == T.CallbackEnter(t) && t in u.timers && !u.timers[t].destroyed;
            && u'.posting[t] + (if step == T.CallbackPost(t) then 1 else 0) == u.posting[t] + (if enters then 1 else 0)
            && multiset(posts)[P.TimerFired(t)] == (if step == T.CallbackPost(t) then 1 else 0)
  {
    match step
    case CallbackEnter(v) =>
    case CallbackPost(v) =>
    case _ =>
  }

  /** ... and those taken, looked into and called. */
  lemma StepCalls(log: seq<P.Packet>, done: nat, u: T.World, step: T.Step, t: nat)
    requires T.Enabled(log, done, u, step)
    requires (!u.loopAt.Between? ==> u.loopAt.timer in u.timers) && (step.TakeTimer? ==> log[done].timer in u.timers)
    ensures var u' := T.Next(log, done, u, step).0;
            var looks := step == T.LookAtFlag && u.loopAt == T.Holding(t);
            && (if u'.loopAt == T.Holding(t) then 1 else 0) + (if looks then 1 else 0)
               == (if u.loopAt == T.Holding(t) then 1 else 0) + (if step.TakeTimer? && log[done] == P.TimerFired(t) then 1 else 0)
            && T.Calls(u', t) == T.Calls(u, t) + if looks && t in u.timers && !u.timers[t].destroyed then 1 else 0
  {
    match step
    case TakeTimer =>
    case LookAtFlag =>
    case CallBack =>
    case _ => LoopIsElsewhere(log, done, u, step);
  }

  lemma LoopIsElsewhere(log: seq<P.Packet>, done: nat, u: T.World, step: T.Step)
    requires T.Enabled(log, done, u, step) && !step.TakeTimer? && !step.LookAtFlag? && !step.CallBack?
    ensures var u' := T.Next(log, done, u, step).0; u'.loopAt == u.loopAt && u'.fired == u.fired
  {
  }

  lemma InvIsAnchored(log: seq<P.Packet>, done: nat, u: T.World, step: T.Step)
    requires T.Inv(log, done, u) && T.Enabled(log, done, u, step)
    ensures (forall v <- u.posting :: v in u.timers) && (!u.loopAt.Between? ==> u.loopAt.timer in u.timers)
    ensures step.TakeTimer? ==> done < |log| && log[done].TimerFired? && log[done].timer in u.timers
  {
    hide T.Good;
  }

  lemma MoveCounts(strict: bool, s: Sys, m: Move, t: nat)
    requires Inv(strict, s) && Enabled(strict, s, m)
    ensures var s' := Apply(strict, s, m);
            && OnTheWay(s', t) + (if LooksAt(s, m, t) then 1 else 0) == OnTheWay(s, t) + (if Enters(s, m, t) then 1 else 0)
            && T.Calls(s'.timers, t) == T.Calls(s.timers, t) + if LooksAt(s, m, t) && Alive(s, t) then 1 else 0
  {
    hide S.Inv, T.Inv, S.Enabled, S.Next, T.Enabled, T.Next, Packets;
    match m
    case EnterLoop(_) =>
    case Fetch(n) => MovePackets(s.port, P.Fetch(n), t);
    case Io(step) => IoMovesNoTimer(strict, s, step, t);
    case Timer(step) => TimerMoveCounts(strict, s, step, t);
    case PostWake => MovePackets(s.port, P.Post(P.Wake), t);
    case SkipPacket => MovePackets(s.port, P.Take, t);
  }

  lemma TimerMoveCounts(strict: bool, s: Sys, step: T.Step, t: nat)
    requires Inv(strict, s) && Enabled(strict, s, Timer(step))
    ensures var s', m := Apply(strict, s, Timer(step)), Timer(step);
            && OnTheWay(s', t) + (if LooksAt(s, m, t) then 1 else 0) == OnTheWay(s, t) + (if Enters(s, m, t) then 1 else 0)
            && T.Calls(s'.timers, t) == T.Calls(s.timers, t) + if LooksAt(s, m, t) && Alive(s, t) then 1 else 0
  {
    hide S.Inv, T.Inv, T.Enabled, T.Next, Packets;
    var log, done := s.port.History(), s.port.Done();
    InvIsAnchored(log, done, s.timers, step);
    StepPosts(log, done, s.timers, step, t);
    StepCalls(log, done, s.timers, step, t);
    if step.TakeTimer? {
      TakesHead(s.port);
      MovePackets(s.port, P.Take, t);
    } else {
      PostAllPackets(s.port, T.Next(log, done, s.timers, step).1, t);
    }
  }

  /** The user's callback runs exactly for the packets that the loop looks into and finds the flag clear,
      once each; a call that has been decided and not made yet counts as made. */
  lemma {:induction false} CallsAreClearLooks(strict: bool, run: seq<Sys>, moves: seq<Move>, n: nat, t: nat)
    requires IsRun(strict, run, moves) && n < |run|
    ensures T.Calls(run[n].timers, t) == Looks(run, moves, n, t, true)
  {
    hide Apply, Enabled, Inv, T.Calls;
    if n > 0 {
      CallsAreClearLooks(strict, run, moves, n - 1, t);
      RunIsSafe(strict, run, moves, n - 1);
      MoveCounts(strict, run[n - 1], moves[n - 1], t);
    } else {
      NothingFired(t);
    }
  }

  lemma NothingFired(t: nat)
    ensures T.Calls(START.timers, t) == 0 && OnTheWay(START, t) == 0
  {
  }

  /** No firing is lost and none is repeated.  Over any run, the entries of the timer queue's callback that
      found timer t alive are those still on their way to the loop, those that the loop skipped because
      the timer was destroyed meanwhile, and those that called the user's callback. */
  lemma {:induction false} FiringsAreConserved(strict: bool, run: seq<Sys>, moves: seq<Move>, n: nat, t: nat)
    requires IsRun(strict, run, moves) && n < |run|
    ensures Entries(run, moves, n, t) == OnTheWay(run[n], t) + Looks(run, moves, n, t, false) + T.Calls(run[n].timers, t)
  {
    hide Apply, Enabled, Inv, T.Calls, OnTheWay;
    CallsAreClearLooks(strict, run, moves, n, t);
    if n > 0 {
      FiringsAreConserved(strict, run, moves, n - 1, t);
      CallsAreClearLooks(strict, run, moves, n - 1, t);
      RunIsSafe(strict, run, moves, n - 1);
      MoveCounts(strict, run[n - 1], moves[n - 1], t);
    } else {
      NothingFired(t);
    }
  }

  /** A timer that is not destroyed is never skipped: each firing has called the user's callback once, or is
      still on its way. */
  lemma {:induction false} LiveTimersAreNotSkipped(strict: bool, run: seq<Sys>, moves: seq<Move>, n: nat, t: nat)
    requires IsRun(strict, run, moves) && n < |run| && (Alive(run[n], t) || (t !in run[n].timers.timers && t !in run[n].timers.gone))
    ensures Looks(run, moves, n, t, false) == 0
    ensures Entries(run, moves, n, t) == OnTheWay(run[n], t) + T.Calls(run[n].timers, t)
  {
    hide Apply, Enabled, Inv, T.Calls, OnTheWay;
    FiringsAreConserved(strict, run, moves, n, t);
    if n > 0 {
      RunIsSafe(strict, run, moves, n - 1);
      NotDoomedBefore(strict, run[n - 1], moves[n - 1], t);
      LiveTimersAreNotSkipped(strict, run, moves, n - 1, t);
    }
  }

  lemma NotDoomedBefore(strict: bool, s: Sys, m: Move, t: nat)
    requires Inv(strict, s) && Enabled(strict, s, m)
    requires var u := Apply(strict, s, m); Alive(u, t) || (t !in u.timers.timers && t !in u.timers.gone)
    ensures Alive(s, t) || (t !in s.timers.timers && t !in s.timers.gone)
    ensures LooksAt(s, m, t) ==> Alive(s, t)
  {
    hide S.Inv, S.Enabled, S.Next, T.Good;
  }

  /* ---------------- which timers are in the timer queue ---------------- */

  predicate Starts(m: Move, t: nat) { m == Timer(T.Start(t, true)) }

  predicate Ends(m: Move, t: nat)
  {
    m.Timer? && (m.tstep == T.StopBegin(t, true) || (m.tstep.DestroyBegin? && m.tstep.t == t))
  }

  /** Move i starts timer t, and up to state n it is neither stopped nor destroyed. */
  ghost predicate StartedAt(moves: seq<Move>, i: nat, n: nat, t: nat)
    requires n <= |moves|
  {
    i < n && Starts(moves[i], t) && forall j :: i < j < n ==> !Ends(moves[j], t)
  }

  /** The flags of the timer agree with the timer queue. */
  predicate Fit(u: T.World, t: nat)
  {
    t in u.timers ==>
      var x := u.timers[t];
      && (x.phase.Idle? ==> (x.active <==> t in u.queued) && (x.active <==> x.started))
      && (x.phase.Stopping? ==> !x.active)
  }

  lemma StepFits(log: seq<P.Packet>, done: nat, u: T.World, step: T.Step, t: nat)
    requires T.Enabled(log, done, u, step) && Fit(u, t) && (t in u.queued ==> t in u.timers && u.timers[t].phase.Idle?)
    ensures var u' := T.Next(log, done, u, step).0;
            && Fit(u', t) && (t in u'.queued <==> Starts(Timer(step), t) || (t in u.queued && !Ends(Timer(step), t)))
  {
    match step
    case Create(_) =>
    case Start(_, _) =>
    case StopBegin(_, _) =>
    case StopEnd(_) =>
    case DestroyBegin(_, _) =>
    case _ =>
  }

  lemma QueuedIsIdle(strict: bool, s: Sys, t: nat)
    requires Inv(strict, s) && t in s.timers.queued
    ensures t in s.timers.timers && s.timers.timers[t].phase.Idle?
  {
    assert T.Good(s.port.History(), s.port.Done(), s.timers, t);
  }

  lemma MoveFits(strict: bool, s: Sys, m: Move, t: nat)
    requires Inv(strict, s) && Enabled(strict, s, m) && Fit(s.timers, t)
    ensures var u := Apply(strict, s, m).timers;
            && Fit(u, t) && (t in u.queued <==> Starts(m, t) || (t in s.timers.queued && !Ends(m, t)))
  {
    if t in s.timers.queued {
      QueuedIsIdle(strict, s, t);
    }
    hide Inv, S.Enabled, S.Next, T.Enabled, T.Next;
    if m.Timer? {
      StepFits(s.port.History(), s.port.Done(), s.timers, m.tstep, t);
    }
  }

  lemma StartedGoesOn(moves: seq<Move>, m: nat, n: nat, t: nat)
    requires m + 1 == n <= |moves|
    ensures (exists i :: StartedAt(moves, i, n, t)) <==>
              Starts(moves[m], t) || ((exists i :: StartedAt(moves, i, m, t)) && !Ends(moves[m], t))
  {
    if i: nat :| StartedAt(moves, i, n, t) {
      assert i < m ==> StartedAt(moves, i, m, t);
    }
    if Starts(moves[m], t) {
      assert StartedAt(moves, m, n, t);
    }
    if i: nat :| StartedAt(moves, i, m, t) {
      assert !Ends(moves[m], t) ==> StartedAt(moves, i, n, t);
    }
  }

  lemma {:induction false} QueuedMeansStartedFits(strict: bool, run: seq<Sys>, moves: seq<Move>, n: nat, t: nat)
    requires IsRun(strict, run, moves) && n < |run|
    ensures Fit(run[n].timers, t) && (t in run[n].timers.queued <==> exists i :: StartedAt(moves, i, n, t))
  {
    hide Apply, Enabled, Inv, Fit, StartedAt, Starts, Ends;
    if n > 0 {
      QueuedMeansStartedFits(strict, run, moves, n - 1, t);
      RunIsSafe(strict, run, moves, n - 1);
      MoveFits(strict, run[n - 1], moves[n - 1], t);
      StartedGoesOn(moves, n - 1, n, t);
    } else {
      NothingQueued(moves, t);
    }
  }

  lemma NothingQueued(moves: seq<Move>, t: nat)
    ensures Fit(START.timers, t) && t !in START.timers.queued && forall i :: !StartedAt(moves, i, 0, t)
  {
  }

  /** A timer is in the timer queue exactly when it was started and since then neither stopped (with its
      queue entry deleted) nor destroyed; and unless it is being stopped or destroyed, it is active
      exactly then. */
  lemma QueuedMeansStarted(strict: bool, run: seq<Sys>, moves: seq<Move>, n: nat, t: nat)
    requires IsRun(strict, run, moves) && n < |run|
    ensures t in run[n].timers.queued <==> exists i :: StartedAt(moves, i, n, t)
    ensures t in run[n].timers.timers && run[n].timers.timers[t].phase.Idle? ==>
              (run[n].timers.timers[t].active <==> t in run[n].timers.queued)
  {
    QueuedMeansStartedFits(strict, run, moves, n, t);
  }
}
