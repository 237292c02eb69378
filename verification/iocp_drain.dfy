/** The drain barrier at work: tearing a watcher down from another thread, and why the wait for the
    sync record ends. */
module IocpDrain {
  import P = IocpPort
  import W = IocpWatcher
  import S = IocpSafety
  import T = IocpTimer
  import opened Iocp
  import opened IocpResults
  import opened Options

  /* ---------------- destroying a watcher from another thread ---------------- */

  /** The teardown of watcher w, whose platform_data was block b: the struct is gone, the drain timed
      out, or block b has been freed only if a completion to free it was `due`, and else still waits for
      it: that of the read, or that of a caller's write that was outstanding. */
  ghost predicate Fate(log: seq<P.Packet>, done: nat, io: W.World, w: nat, b: nat, due: bool)
  {
    || w in io.gone
    || (&& w in io.watchers
        && var x := io.watchers[w];
        && !x.active
        && (|| x.phase.GaveUp?
            || (&& (x.phase.MustDrain? || x.phase.Draining? || x.phase.Drained?)
                && match x.data
                   case None => due && b in io.freed
                   case Some(c) =>
                     && c == b && b in io.heap && io.heap[b].stopping
                     && (due <==> x.hasCallback && (!io.heap[b].armFailed || !S.NoWrites(log, done, io, w))))))
  }

  /** The two agree but for the bytes read. */
  predicate Alike(x: W.Watcher, y: W.Watcher)
  {
    x.hasCallback == y.hasCallback && x.active == y.active && x.data == y.data && x.phase == y.phase
  }

  /** Every caller's write on w that is outstanding before is so after, and no other. */
  ghost predicate SameWrites(log: seq<P.Packet>, done: nat, s: W.World, log': seq<P.Packet>, done': nat, t: W.World, w: nat)
  {
    S.NoWrites(log, done, s, w) <==> S.NoWrites(log', done', t, w)
  }

  lemma OtherPacketIsNoWrite(log: seq<P.Packet>, done: nat, s: W.World, w: nat, x: P.Packet)
    requires !S.IsWrite(x, w)
    ensures done <= |log| ==> (S.NoWrites(log + [x], done, s, w) <==> S.NoWrites(log, done, s, w))
    ensures done < |log| && log[done] == x ==> (S.NoWrites(log, done + 1, s, w) <==> S.NoWrites(log, done, s, w))
  {
    if done <= |log| && !S.NoWrites(log, done, s, w) && w !in s.writing {
      var i :| done <= i < |log| && S.IsWrite(log[i], w);
      assert (log + [x])[i] == log[i];
    }
  }

  lemma SameFate(log: seq<P.Packet>, done: nat, s: W.World, log': seq<P.Packet>, done': nat, t: W.World, w: nat, b: nat, due: bool)
    requires Fate(log, done, s, w, b, due) && s.gone <= t.gone && s.freed <= t.freed
    requires w in s.watchers ==> SameWrites(log, done, s, log', done', t, w)
    requires w in s.watchers ==>
               && w in t.watchers && Alike(s.watchers[w], t.watchers[w])
               && (s.watchers[w].data.Some? && s.watchers[w].data.value in s.heap ==>
                     var c := s.watchers[w].data.value;
                     c in t.heap && t.heap[c].stopping == s.heap[c].stopping && t.heap[c].armFailed == s.heap[c].armFailed)
    ensures Fate(log', done', t, w, b, due)
  {
    hide S.NoWrites;
  }

  lemma OwnDispatchKeepsFate(log: seq<P.Packet>, done: nat, s: W.World, plan: W.Plan, w: nat, b: nat, due: bool)
    requires S.Inv(true, log, done, s) && S.Enabled(true, log, done, s, S.DispatchIo(plan))
    requires Fate(log, done, s, w, b, due) && log[done].watcher == w && w in s.watchers
    ensures var p := log[done]; Fate(log, done + 1, W.Dispatch(s, w, p.overlapped, p.bytes, plan), w, b, due)
  {
    assert S.Good(true, log, done, s, w);
    if !s.watchers[w].active && !s.watchers[w].phase.GaveUp? && s.watchers[w].data.Some? && s.watchers[w].hasCallback {
      OwnPacketWasDue(log, done, s, w);
    }
  }

  /** A packet of a stopped watcher is the completion of its read or of an outstanding write. */
  lemma OwnPacketWasDue(log: seq<P.Packet>, done: nat, s: W.World, w: nat)
    requires w in s.watchers && S.Good(true, log, done, s, w) && done < |log| && S.Keyed(log[done], w)
    requires s.watchers[w].data.Some?
    ensures !s.heap[s.watchers[w].data.value].armFailed || !S.NoWrites(log, done, s, w)
  {
    if S.IsRead(log[done], w) {
      assert S.OwnsRead(s, w, log[done].overlapped.block);
    }
  }

  lemma OtherDispatchKeepsFate(log: seq<P.Packet>, done: nat, s: W.World, plan: W.Plan, w: nat, b: nat, due: bool)
    requires S.Inv(true, log, done, s) && S.Enabled(true, log, done, s, S.DispatchIo(plan))
    requires Fate(log, done, s, w, b, due) && log[done].watcher != w
    ensures var p := log[done]; Fate(log, done + 1, W.Dispatch(s, p.watcher, p.overlapped, p.bytes, plan), w, b, due)
  {
    var p := log[done];
    assert S.Good(true, log, done, s, p.watcher);
    S.InvIsApart(true, log, done, s, p.watcher);
    S.DispatchIsLocal(s, p.watcher, p.overlapped, p.bytes, plan);
    var t := W.Dispatch(s, p.watcher, p.overlapped, p.bytes, plan);
    hide W.Dispatch, S.Inv, S.Good;
    OtherPacketIsNoWrite(log, done, s, w, p);
    SameFate(log, done, s, log, done + 1, t, w, b, due);
  }

  lemma OperationKeepsFate(log: seq<P.Packet>, done: nat, s: W.World, step: S.Step, w: nat, b: nat, due: bool)
    requires S.Inv(true, log, done, s) && S.Enabled(true, log, done, s, step) && Fate(log, done, s, w, b, due)
    requires step.Change? || step.Halt?
    ensures Fate(log, done, S.Next(true, log, done, s, step).0, w, b, due)
  {
    assert S.Good(true, log, done, s, step.w);
    S.InvIsApart(true, log, done, s, step.w);
    var t := S.Next(true, log, done, s, step).0;
    if step.w != w {
      if step.Change? {
        S.UpdateIsLocal(s, step.w, step.read, step.issued);
      } else {
        S.StopIsLocal(s, step.w, step.thread);
      }
      SameFate(log, done, s, log, done, t, w, b, due);
    }
  }

  lemma CompleteKeepsFate(log: seq<P.Packet>, done: nat, s: W.World, l: W.Lent, status: W.Status, data: seq<W.byte>, w: nat, b: nat, due: bool)
    requires S.Anchored(log, done, s) && Fate(log, done, s, w, b, due) && |data| <= W.BUFFER_SIZE
    ensures Fate(log + [P.IoDone(l.watcher, P.Embedded(l.block), |data|)], done, W.KernelRead(s, l, status, data), w, b, due)
  {
    var x := P.IoDone(l.watcher, P.Embedded(l.block), |data|);
    S.KernelReadShape(s, l, status, data);
    hide W.KernelRead;
    OtherPacketIsNoWrite(log, done, s, w, x);
    SameFate(log, done, s, log + [x], done, W.KernelRead(s, l, status, data), w, b, due);
  }

  lemma ReleaseKeepsFate(log: seq<P.Packet>, done: nat, s: W.World, v: nat, w: nat, b: nat, due: bool)
    requires S.Inv(true, log, done, s) && v in s.watchers && !s.watchers[v].active && Fate(log, done, s, w, b, due)
    ensures Fate(log, done, W.Release(s, v), w, b, due)
  {
    assert S.Good(true, log, done, s, v);
  }

  lemma PhaseKeepsFate(log: seq<P.Packet>, done: nat, s: W.World, step: S.Step, w: nat, b: nat, due: bool)
    requires step.PostSync? || step.SyncSeen? || step.SyncTimedOut? || step.BeginWrite?
    requires S.Enabled(true, log, done, s, step) && Fate(log, done, s, w, b, due) && done <= |log|
    ensures Fate(log + S.Next(true, log, done, s, step).1, done, S.Next(true, log, done, s, step).0, w, b, due)
  {
    assert log + [] == log;
    if step.PostSync? {
      OtherPacketIsNoWrite(log, done, s, w, P.Sync(|log|));
    }
  }

  lemma WriteKeepsFate(log: seq<P.Packet>, done: nat, s: W.World, v: nat, id: nat, bytes: nat, w: nat, b: nat, due: bool)
    requires v in s.writing && done <= |log| && Fate(log, done, s, w, b, due)
    ensures Fate(log + [P.IoDone(v, P.Callers(id), bytes)], done, s.(writing := s.writing - multiset{v}), w, b, due)
  {
    var x, t := P.IoDone(v, P.Callers(id), bytes), s.(writing := s.writing - multiset{v});
    if v == w {
      assert S.IsWrite((log + [x])[|log|], w);
    } else {
      OtherPacketIsNoWrite(log, done, s, w, x);
    }
    SameFate(log, done, s, log + [x], done, t, w, b, due);
  }

  lemma CreateKeepsFate(log: seq<P.Packet>, done: nat, s: W.World, step: S.Step, w: nat, b: nat, due: bool)
    requires S.Inv(true, log, done, s) && S.Enabled(true, log, done, s, step) && step.Create? && Fate(log, done, s, w, b, due)
    ensures Fate(log, done, W.Register(s, step.w, step.b, step.hasCallback, step.read), w, b, due)
  {
    S.CreateIsApart(true, log, done, s, step.w, step.b, step.hasCallback, step.read);
    S.RegisterShape(s, step.w, step.b, step.hasCallback, step.read);
    hide W.Register, S.Inv, S.Anchored;
    SameFate(log, done, s, log, done, W.Register(s, step.w, step.b, step.hasCallback, step.read), w, b, due);
  }

  lemma StepKeepsFate(log: seq<P.Packet>, done: nat, s: W.World, step: S.Step, w: nat, b: nat, due: bool)
    requires S.Inv(true, log, done, s) && S.Enabled(true, log, done, s, step) && Fate(log, done, s, w, b, due)
    ensures var (t, posts) := S.Next(true, log, done, s, step);
            Fate(log + posts, done + (if step.DispatchIo? then 1 else 0), t, w, b, due)
  {
    hide Fate, W.Register, W.Dispatch, W.KernelRead, W.Release, W.Update, W.Stop, S.NoWrites, S.MayStop, S.Unreferenced, S.Good;
    assert log + [] == log;
    match step
    case Create(_, _, _, _) => CreateKeepsFate(log, done, s, step, w, b, due);
    case Change(_, _, _) => OperationKeepsFate(log, done, s, step, w, b, due);
    case Halt(_, _) => OperationKeepsFate(log, done, s, step, w, b, due);
    case Destroy(v) => ReleaseKeepsFate(log, done, s, v, w, b, due);
    case CompleteRead(l, status, data) => CompleteKeepsFate(log, done, s, l, status, data, w, b, due);
    case DispatchIo(plan) => DispatchKeepsFate(log, done, s, plan, w, b, due);
    case KernelWrite(v, id, bytes) => WriteKeepsFate(log, done, s, v, id, bytes, w, b, due);
    case PostSync(_) => PhaseKeepsFate(log, done, s, step, w, b, due);
    case SyncSeen(_) => PhaseKeepsFate(log, done, s, step, w, b, due);
    case SyncTimedOut(_) => PhaseKeepsFate(log, done, s, step, w, b, due);
    case BeginWrite(_) => PhaseKeepsFate(log, done, s, step, w, b, due);
  }

  lemma DispatchKeepsFate(log: seq<P.Packet>, done: nat, s: W.World, plan: W.Plan, w: nat, b: nat, due: bool)
    requires S.Inv(true, log, done, s) && S.Enabled(true, log, done, s, S.DispatchIo(plan)) && Fate(log, done, s, w, b, due)
    ensures Fate(log, done + 1, S.Next(true, log, done, s, S.DispatchIo(plan)).0, w, b, due)
  {
    if log[done].watcher == w {
      assert w in s.watchers;
      OwnDispatchKeepsFate(log, done, s, plan, w, b, due);
    } else {
      OtherDispatchKeepsFate(log, done, s, plan, w, b, due);
    }
  }

  /** Fate as a predicate of the whole system. */
  ghost predicate SysFate(s: Sys, w: nat, b: nat, due: bool)
  {
    Fate(s.port.History(), s.port.Done(), s.io, w, b, due)
  }

  lemma IoMoveKeepsFate(s: Sys, step: S.Step, w: nat, b: nat, due: bool)
    requires Inv(true, s) && Enabled(true, s, Io(step)) && SysFate(s, w, b, due)
    ensures SysFate(Apply(true, s, Io(step)), w, b, due)
  {
    hide Fate, S.Inv, T.Inv, S.Enabled, S.Next;
    var log, done := s.port.History(), s.port.Done();
    StepKeepsFate(log, done, s.io, step, w, b, due);
    if step.DispatchIo? {
      TakesHead(s.port);
      DispatchPostsNothing(log, done, s.io, step);
      assert log + [] == log;
    }
  }

  lemma DispatchPostsNothing(log: seq<P.Packet>, done: nat, s: W.World, step: S.Step)
    requires S.Enabled(true, log, done, s, step) && step.DispatchIo?
    ensures S.Next(true, log, done, s, step).1 == []
  {
  }

  lemma MoveKeepsFate(s: Sys, m: Move, w: nat, b: nat, due: bool)
    requires Inv(true, s) && Enabled(true, s, m) && SysFate(s, w, b, due)
    ensures SysFate(Apply(true, s, m), w, b, due)
  {
    hide Apply, Enabled, Inv, S.NoWrites;
    if m.Io? {
      IoMoveKeepsFate(s, m.step, w, b, due);
    } else {
      var t := Apply(true, s, m);
      ForeignMoveKeepsWrites(s, m, w);
      SameFate(s.port.History(), s.port.Done(), s.io, t.port.History(), t.port.Done(), t.io, w, b, due);
    }
  }

  lemma ForeignMoveKeepsWrites(s: Sys, m: Move, w: nat)
    requires Enabled(true, s, m) && !m.Io?
    ensures var t := Apply(true, s, m);
            && t.io == s.io.(loopThread := t.io.loopThread)
            && SameWrites(s.port.History(), s.port.Done(), s.io, t.port.History(), t.port.Done(), t.io, w)
  {
    hide T.Enabled;
    var log, done, t := s.port.History(), s.port.Done(), Apply(true, s, m);
    match m
    case EnterLoop(_) =>
    case Fetch(n) =>
      P.MoveKeepsOrder(s.port, P.Fetch(n));
      assert log + [] == log;
    case PostWake =>
      P.MoveKeepsOrder(s.port, P.Post(P.Wake));
      OtherPacketIsNoWrite(log, done, s.io, w, P.Wake);
    case SkipPacket =>
      TakesHead(s.port);
      OtherPacketIsNoWrite(log, done, s.io, w, s.port.batch[0]);
    case Timer(step) => TimerMoveKeepsWrites(s, step, w);
  }

  lemma TimerMoveKeepsWrites(s: Sys, step: T.Step, w: nat)
    requires Enabled(true, s, Timer(step))
    ensures var t := Apply(true, s, Timer(step));
            SameWrites(s.port.History(), s.port.Done(), s.io, t.port.History(), t.port.Done(), t.io, w)
  {
    var log, done := s.port.History(), s.port.Done();
    if step.TakeTimer? {
      TakesHead(s.port);
      OtherPacketIsNoWrite(log, done, s.io, w, s.port.batch[0]);
    } else {
      var posts := T.Next(log, done, s.timers, step).1;
      TimerPosts(s.port, s.timers, step);
      if posts == [] {
        assert log + posts == log;
      } else {
        assert posts == [posts[0]];
        OtherPacketIsNoWrite(log, done, s.io, w, posts[0]);
      }
    }
  }

  lemma {:induction false} FateIsKept(run: seq<Sys>, moves: seq<Move>, i: nat, j: nat, w: nat, b: nat, due: bool)
    requires IsRun(true, run, moves) && i <= j < |run| && SysFate(run[i], w, b, due)
    ensures SysFate(run[j], w, b, due)
    decreases j
  {
    hide Apply, Enabled, Inv, SysFate;
    if i < j {
      FateIsKept(run, moves, i, j - 1, w, b, due);
      RunIsSafe(true, run, moves, j - 1);
      MoveKeepsFate(run[j - 1], moves[j - 1], w, b, due);
    }
  }

  /** A completion is due that frees the block of w when w is stopped: dispatch looks at it, and either no
      update of w had failed to re-issue its read, or a caller's write is outstanding. */
  ghost predicate FreeIsDue(s: Sys, w: nat)
    requires w in s.io.watchers && s.io.watchers[w].data.Some? && s.io.watchers[w].data.value in s.io.heap
  {
    s.io.watchers[w].hasCallback
    && (!s.io.heap[s.io.watchers[w].data.value].armFailed || !S.NoWrites(s.port.History(), s.port.Done(), s.io, w))
  }

  /** Destroying a watcher off the loop thread.  Let pd_watcher_stop find a read in flight in block b
      and owe a drain.  When, any number of moves later, that drain has been consumed, nothing in the
      kernel, the batch or the queue refers to the watcher; and block b has then been freed, exactly
      once, if and only if a completion that frees it was due at the stop. */
  lemma DrainedDestroy(run: seq<Sys>, moves: seq<Move>, i: nat, j: nat, w: nat, thread: nat)
    requires IsRun(true, run, moves) && i < j < |run| && moves[i] == Io(S.Halt(w, thread))
    requires w in run[i].io.watchers && run[i].io.watchers[w].active
    requires w in run[i + 1].io.watchers && run[i + 1].io.watchers[w].phase.MustDrain?
    requires w in run[j].io.watchers && run[j].io.watchers[w].phase.Drained?
    ensures S.Unreferenced(run[j].port.History(), run[j].port.Done(), run[j].io, w)
    ensures var x := run[i].io.watchers[w];
            && x.data.Some? && x.data.value in run[i].io.heap
            && var b, due := x.data.value, FreeIsDue(run[i], w);
               && (due <==> run[j].io.watchers[w].data.None?)
               && (due <==> b in run[j].io.freed) && (due <==> b !in run[j].io.heap)
    ensures !run[j].io.loopFault && !run[j].io.kernelFault
  {
    HaltOwesDrain(run, moves, i, w, thread);
    hide Apply, Enabled;
    RunIsSafe(true, run, moves, j);
    assert S.Good(true, run[j].port.History(), run[j].port.Done(), run[j].io, w);
    FateIsKept(run, moves, i + 1, j, w, run[i].io.watchers[w].data.value, FreeIsDue(run[i], w));
  }

  /** The stop that finds a read in flight leaves the block to its completion. */
  lemma HaltOwesDrain(run: seq<Sys>, moves: seq<Move>, i: nat, w: nat, thread: nat)
    requires IsRun(true, run, moves) && i < |moves| && moves[i] == Io(S.Halt(w, thread))
    requires w in run[i].io.watchers && run[i].io.watchers[w].active
    requires w in run[i + 1].io.watchers && run[i + 1].io.watchers[w].phase.MustDrain?
    ensures var x := run[i].io.watchers[w];
            && x.data.Some? && x.data.value in run[i].io.heap
            && SysFate(run[i + 1], w, x.data.value, FreeIsDue(run[i], w))
  {
    RunIsSafe(true, run, moves, i);
    assert S.Good(true, run[i].port.History(), run[i].port.Done(), run[i].io, w);
    assert run[i].port.History() + [] == run[i].port.History();
  }

  /* ---------------- the barrier over whole runs ---------------- */

  /** The drain barrier.  Let a move post the sync record of a drain, whether a watcher's or a timer's.
      Once the loop has dispatched that record, it has dispatched every packet that was in the batch or
      the queue when the record was posted, in posting order, whatever the batch sizes and whatever
      was posted meanwhile. */
  lemma SyncIsBarrier(strict: bool, run: seq<Sys>, moves: seq<Move>, i: nat, j: nat)
    requires IsRun(strict, run, moves) && i < j < |run|
    requires (moves[i].Io? && moves[i].step.PostSync?) || (moves[i].Timer? && moves[i].tstep.DestroyPostSync?)
    requires |run[i].port.History()| < run[j].port.Done()
    ensures run[i].port.History() + [P.Sync(|run[i].port.History()|)] <= run[j].port.dispatched
  {
    assert run[i + 1].port.History() == run[i].port.History() + [P.Sync(|run[i].port.History()|)];
    HistoryGrows(strict, run, moves, i + 1, j);
    assert run[j].port.dispatched == run[j].port.History()[..run[j].port.Done()];
  }

  /* ---------------- the loop can always finish a drain ---------------- */

  /** What the loop thread does next when packets are pending: finish the timer packet it is at; else
      fetch if its batch is used up; else dispatch the head of the batch. */
  function LoopMove(s: Sys): Move
  {
    if s.timers.loopAt.Holding? then Timer(T.LookAtFlag)
    else if s.timers.loopAt.Calling? then Timer(T.CallBack)
    else if s.port.batch == [] then Fetch(1)
    else match s.port.batch[0]
         case IoDone(_, _, _) => Io(S.DispatchIo(W.Plan([], W.Return, true)))
         case TimerFired(_) => Timer(T.TakeTimer)
         case _ => SkipPacket
  }

  /** A move of the loop thread in its dispatch loop, whatever the callbacks do. */
  predicate OfLoop(m: Move)
  {
    m.Fetch? || m.SkipPacket? || (m.Io? && m.step.DispatchIo?)
    || (m.Timer? && (m.tstep.TakeTimer? || m.tstep.LookAtFlag? || m.tstep.CallBack?))
  }

  /** An upper bound on the loop moves left until the record with this ticket is consumed. */
  function Remaining(s: Sys, ticket: nat): nat
  {
    4 * P.Distance(s.port, ticket) + (if s.port.batch == [] then 1 else 0) + Stage(s.timers.loopAt)
  }

  function Stage(l: T.LoopAt): nat
  {
    match l
    case Between => 0
    case Holding(_) => 2
    case Calling(_) => 1
  }

  lemma MoveLowersRemaining(strict: bool, s: Sys, m: Move, ticket: nat)
    requires Enabled(strict, s, m) && s.port.Done() <= ticket
    ensures Remaining(Apply(strict, s, m), ticket) + (if OfLoop(m) then 1 else 0) <= Remaining(s, ticket)
  {
    hide S.Enabled, S.Next, T.Enabled, T.Next;
    if s.port.batch != [] {
      TakesHead(s.port);
    }
    if m.Timer? {
      StepLowersStage(s.port.History(), s.port.Done(), s.timers, m.tstep);
    }
  }

  lemma StepLowersStage(log: seq<P.Packet>, done: nat, u: T.World, step: T.Step)
    requires T.Enabled(log, done, u, step)
    ensures Stage(T.Next(log, done, u, step).0.loopAt) + (if step.LookAtFlag? || step.CallBack? then 1 else 0)
            <= Stage(u.loopAt) + (if step.TakeTimer? then 2 else 0)
  {
  }

  lemma LoopMoveIsEnabled(strict: bool, mode: bool, s: Sys)
    requires Inv(strict, s) && s.port.Done() < |s.port.History()|
    ensures Enabled(mode, s, LoopMove(s)) && OfLoop(LoopMove(s))
  {
    hide S.Good, T.Inv;
    if s.port.batch != [] {
      TakesHead(s.port);
      HeadIsDispatchable(strict, mode, s);
    }
  }

  lemma HeadIsDispatchable(strict: bool, mode: bool, s: Sys)
    requires S.Inv(strict, s.port.History(), s.port.Done(), s.io) && s.port.batch != []
    requires s.port.Done() < |s.port.History()| && s.port.History()[s.port.Done()] == s.port.batch[0]
    ensures s.port.batch[0].IoDone? ==>
              S.Enabled(mode, s.port.History(), s.port.Done(), s.io, S.DispatchIo(W.Plan([], W.Return, true)))
  {
    hide S.Good;
  }

  /** A thread that waits in iocp_watcher_unregister for its sync record is never the loop thread; the
      loop thread always has an enabled move while the record is pending; its moves bring the record
      strictly closer, and no move of anyone pushes it back. */
  lemma DrainMakesProgress(run: seq<Sys>, moves: seq<Move>, i: nat, w: nat)
    requires IsRun(true, run, moves) && i < |run| && w in run[i].io.watchers
    requires run[i].io.watchers[w].phase.Draining?
    requires run[i].port.Done() <= run[i].io.watchers[w].phase.ticket
    ensures var s, ph := run[i], run[i].io.watchers[w].phase;
            && ph.thread != s.io.loopThread
            && Enabled(true, s, LoopMove(s)) && OfLoop(LoopMove(s))
            && forall m :: Enabled(true, s, m) ==>
                 Remaining(Apply(true, s, m), ph.ticket) + (if OfLoop(m) then 1 else 0) <= Remaining(s, ph.ticket)
  {
    RunIsSafe(true, run, moves, i);
    var s, ph := run[i], run[i].io.watchers[w].phase;
    assert S.Good(true, s.port.History(), s.port.Done(), s.io, w);
    LoopMoveIsEnabled(true, true, s);
    forall m | Enabled(true, s, m)
      ensures Remaining(Apply(true, s, m), ph.ticket) + (if OfLoop(m) then 1 else 0) <= Remaining(s, ph.ticket)
    {
      hide Apply, Enabled, Inv;
      MoveLowersRemaining(true, s, m, ph.ticket);
    }
  }

  function LoopMoves(moves: seq<Move>, i: nat, j: nat): nat
    requires i <= j <= |moves|
  {
    if i == j then 0 else LoopMoves(moves, i, j - 1) + if OfLoop(moves[j - 1]) then 1 else 0
  }

  /** The wait is bounded.  Once the loop thread has made as many moves of its dispatch loop as remained
      when the run was at state i, the record with this ticket has been consumed, whatever all the other
      threads and the kernel did meanwhile. */
  lemma {:induction false} DrainEnds(strict: bool, run: seq<Sys>, moves: seq<Move>, i: nat, j: nat, ticket: nat)
    requires IsRun(strict, run, moves) && i <= j < |run|
    ensures run[j].port.Done() > ticket || LoopMoves(moves, i, j) + Remaining(run[j], ticket) <= Remaining(run[i], ticket)
    ensures LoopMoves(moves, i, j) >= Remaining(run[i], ticket) ==> run[j].port.Done() > ticket
    decreases j
  {
    hide Apply, Enabled;
    if i < j {
      DrainEnds(strict, run, moves, i, j - 1, ticket);
      HistoryGrows(strict, run, moves, j - 1, j);
      if run[j - 1].port.Done() <= ticket {
        MoveLowersRemaining(strict, run[j - 1], moves[j - 1], ticket);
      }
    }
  }
}
