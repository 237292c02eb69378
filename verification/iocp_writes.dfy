/** Writes that callers issue themselves on a registered handle: each completion is one callback and
    disturbs no read, provided that none is outstanding when its watcher is stopped. */
module IocpWrites {
  import P = IocpPort
  import W = IocpWatcher
  import S = IocpSafety
  import T = IocpTimer
  import opened Iocp
  import opened IocpResults
  import opened IocpDrain
  import opened Options

  /* ---------------- one callback for each write ---------------- */

  /** The move dispatches the completion of a caller's write on the registered and not stopping watcher w. */
  predicate HearsWrite(s: Sys, m: Move, w: nat)
  {
    && m.Io? && m.step.DispatchIo? && s.port.batch != [] && S.IsWrite(s.port.batch[0], w)
    && w in s.io.watchers && s.io.watchers[w].active && s.io.watchers[w].hasCallback
  }

  /** The completions so heard in the first i moves. */
  function WritesHeard(run: seq<Sys>, moves: seq<Move>, i: nat, w: nat): nat
    requires i <= |moves| < |run|
  {
    if i == 0 then 0 else WritesHeard(run, moves, i - 1, w) + if HearsWrite(run[i - 1], moves[i - 1], w) then 1 else 0
  }

  function WriteCalls(io: W.World, w: nat): nat { multiset(io.calls)[W.Call(w, W.Write)] }

  lemma UnregisterCallsNobody(io: W.World, w: nat)
    requires w in io.watchers
    ensures var t := W.Unregister(io, w).0; t.calls == io.calls && w in t.watchers
  {
  }

  lemma StopCallsNobody(io: W.World, w: nat, thread: nat)
    requires w in io.watchers
    ensures w in W.Stop(io, w, thread).watchers && W.Stop(io, w, thread).calls == io.calls
  {
    UnregisterCallsNobody(io, w);
    hide W.Unregister;
  }

  lemma OperationsCallNobody(io: W.World, w: nat, after: W.After)
    requires w in io.watchers
    ensures W.RunAfter(io, w, after).calls == io.calls
  {
    StopCallsNobody(io, w, io.loopThread);
    hide W.Stop;
    if after.DestroySelf? {
      UnregisterCallsNobody(W.Stop(io, w, io.loopThread), w);
      hide W.Unregister;
    }
  }

  lemma RearmCallsNobody(io: W.World, w: nat, e: W.Event, issued: bool)
    ensures W.Rearm(io, w, e, issued).calls == io.calls
  {
  }

  lemma ConsumeCallsNoWrite(io: W.World, v: nat, b: nat, n: W.Length, lens: seq<nat>, w: nat)
    requires v in io.watchers && b in io.heap
    ensures v in W.Consume(io, v, b, n, lens).watchers
    ensures WriteCalls(W.Consume(io, v, b, n, lens), w) == WriteCalls(io, w)
  {
    hide W.DrainMany;
    var t := W.Consume(io, v, b, n, lens);
    assert t.calls == io.calls + [W.Call(v, W.EventOf(io.heap[b], n))];
  }

  lemma DispatchCalls(log: seq<P.Packet>, done: nat, io: W.World, plan: W.Plan, w: nat)
    requires S.Inv(false, log, done, io) && S.Enabled(false, log, done, io, S.DispatchIo(plan))
    ensures var p := log[done];
            WriteCalls(W.Dispatch(io, p.watcher, p.overlapped, p.bytes, plan), w)
            == WriteCalls(io, w)
               + if S.IsWrite(p, w) && w in io.watchers && io.watchers[w].active && io.watchers[w].hasCallback then 1 else 0
  {
    var p := log[done];
    var v := p.watcher;
    assert S.Good(false, log, done, io, v);
    hide S.Inv, W.Consume, W.RunAfter, W.Rearm, W.DrainMany;
    if io.watchers[v].hasCallback && io.watchers[v].data.Some? {
      var b := io.watchers[v].data.value;
      if !io.heap[b].stopping && p.overlapped != P.Embedded(b) {
        assert !S.IsRead(p, v);
        OperationsCallNobody(W.Called(io, v, W.Write), v, plan.after);
      } else if !io.heap[b].stopping && !io.heap[b].internal.Cancelled? {
        var s1 := W.Consume(io, v, b, p.bytes, plan.lens);
        ConsumeCallsNoWrite(io, v, b, p.bytes, plan.lens, w);
        OperationsCallNobody(s1, v, plan.after);
        RearmCallsNobody(W.RunAfter(s1, v, plan.after), v, W.EventOf(io.heap[b], p.bytes), plan.reissued);
      }
    }
  }

  lemma StepCallsNobody(strict: bool, log: seq<P.Packet>, done: nat, io: W.World, step: S.Step)
    requires S.Enabled(strict, log, done, io, step) && !step.DispatchIo?
    ensures S.Next(strict, log, done, io, step).0.calls == io.calls
  {
    hide S.NoWrites, S.Unreferenced, W.Deposit;
  }

  lemma MoveCallsWrite(strict: bool, s: Sys, m: Move, w: nat)
    requires Inv(strict, s) && Enabled(strict, s, m)
    ensures WriteCalls(Apply(strict, s, m).io, w) == WriteCalls(s.io, w) + if HearsWrite(s, m, w) then 1 else 0
  {
    hide S.Inv, T.Inv, S.Enabled, S.Next, W.Dispatch;
    if m.Io? {
      if m.step.DispatchIo? {
        TakesHead(s.port);
        LaxlyToo(strict, s.port.History(), s.port.Done(), s.io, m.step);
        DispatchCalls(s.port.History(), s.port.Done(), s.io, m.step.plan, w);
        DispatchIsNext(strict, s, m.step.plan);
      } else {
        StepCallsNobody(strict, s.port.History(), s.port.Done(), s.io, m.step);
      }
    }
  }

  lemma DispatchIsNext(strict: bool, s: Sys, plan: W.Plan)
    requires Enabled(strict, s, Io(S.DispatchIo(plan)))
    ensures var p := s.port.batch[0];
            && (p.overlapped.Embedded? ==> p.bytes <= W.BUFFER_SIZE) && p.IoDone?
            && Apply(strict, s, Io(S.DispatchIo(plan))).io == W.Dispatch(s.io, p.watcher, p.overlapped, p.bytes, plan)
  {
    TakesHead(s.port);
    hide W.Dispatch, S.NoWrites, S.RaisesRead;
  }

  /** The invariant and the guards under caller discipline imply those without it. */
  lemma LaxlyToo(strict: bool, log: seq<P.Packet>, done: nat, io: W.World, step: S.Step)
    requires S.Inv(strict, log, done, io) && S.Enabled(strict, log, done, io, step)
    ensures S.Inv(false, log, done, io) && (step.DispatchIo? ==> S.Enabled(false, log, done, io, step))
  {
    hide S.NoWrites, S.RaisesRead, S.Lending, S.Retiring, S.Truthful, S.Streaming, S.Mute, S.Homed, S.Sound;
  }

  /** Over any run, with or without caller discipline: the WRITE callbacks of watcher w are as many as the
      completions of callers' writes that the loop dispatched while w was registered and not stopping;
      each such completion raised exactly one, and nothing else ever raised any. */
  lemma {:induction false} WritesAreHeardOnce(strict: bool, run: seq<Sys>, moves: seq<Move>, i: nat, w: nat)
    requires IsRun(strict, run, moves) && i < |run|
    ensures WriteCalls(run[i].io, w) == WritesHeard(run, moves, i, w)
  {
    hide Apply, Enabled, Inv, HearsWrite;
    if i > 0 {
      WritesAreHeardOnce(strict, run, moves, i - 1, w);
      RunIsSafe(strict, run, moves, i - 1);
      MoveCallsWrite(strict, run[i - 1], moves[i - 1], w);
    }
  }

  /** The reads are left alone: dispatching a caller's write changes no read in flight and no block,
      except what its callback does to its own watcher.  A callback that does nothing leaves everything
      but the log of calls; one that stops the watcher leaves the reads in flight; one that updates it
      while a read is marked pending leaves everything. */
  lemma WriteLeavesReads(strict: bool, s: Sys, plan: W.Plan, w: nat)
    requires Inv(strict, s) && Enabled(strict, s, Io(S.DispatchIo(plan))) && HearsWrite(s, Io(S.DispatchIo(plan)), w)
    ensures var io := Apply(strict, s, Io(S.DispatchIo(plan))).io;
            var called := s.io.(calls := s.io.calls + [W.Call(w, W.Write)]);
            var b := s.io.watchers[w].data.value;
            && s.io.watchers[w].data.Some? && b in s.io.heap
            && (plan.after.Return? ==> io == called)
            && (plan.after.StopSelf? ==> io.lent == s.io.lent && (forall c <- s.io.heap :: c != b ==> c in io.heap && io.heap[c] == s.io.heap[c]))
            && (plan.after.StopSelf? && s.io.heap[b].pending ==> io.heap == s.io.heap[b := s.io.heap[b].(stopping := true)])
            && (plan.after.UpdateSelf? && s.io.heap[b].pending ==> io == called)
  {
    var p := s.port.batch[0];
    var b := s.io.watchers[w].data.value;
    DispatchIsNext(strict, s, plan);
    HeardWriteIsDemuxed(strict, s, plan, w);
    S.StopSelf(s.io.(calls := s.io.calls + [W.Call(w, W.Write)]), w, s.io.loopThread);
    hide Apply, Enabled, Inv, W.Stop, W.Dispatch;
  }

  lemma HeardWriteIsDemuxed(strict: bool, s: Sys, plan: W.Plan, w: nat)
    requires Inv(strict, s) && Enabled(strict, s, Io(S.DispatchIo(plan))) && HearsWrite(s, Io(S.DispatchIo(plan)), w)
    ensures S.Sound(s.io, w) && !plan.after.DestroySelf?
    ensures var p := s.port.batch[0];
            W.Dispatch(s.io, w, p.overlapped, p.bytes, plan)
            == W.RunAfter(s.io.(calls := s.io.calls + [W.Call(w, W.Write)]), w, plan.after)
  {
    assert S.Good(strict, s.port.History(), s.port.Done(), s.io, w);
    hide W.RunAfter, Inv, S.Good;
  }

  /* ---------------- writes outstanding at a stop ---------------- */

  /** The completion of a caller's write, dispatched with the watcher's block b still published, leaves
      the kernel with a read in freed memory exactly when the watcher is stopping and its read is still
      with the kernel. */
  lemma LateWriteStrandsRead(log: seq<P.Packet>, done: nat, io: W.World, plan: W.Plan, b: nat)
    requires S.Inv(false, log, done, io) && done < |log| && log[done].IoDone? && S.IsWrite(log[done], log[done].watcher)
    requires io.watchers[log[done].watcher].hasCallback && io.watchers[log[done].watcher].data == Some(b)
    requires plan.after.Return?
    ensures b in io.heap
    ensures var w := log[done].watcher;
            var t := W.Dispatch(io, w, log[done].overlapped, log[done].bytes, plan);
            W.Lent(w, b) in t.lent && b !in t.heap <==> io.heap[b].stopping && W.Lent(w, b) in io.lent
  {
    assert S.Good(false, log, done, io, log[done].watcher);
  }

  /** A run from state s: any first move, and then moves that respect the callers' rules. */
  ghost predicate Continues(s: Sys, first: Move, run: seq<Sys>, moves: seq<Move>)
  {
    && |run| == |moves| + 1 && |moves| > 0 && run[0] == s && moves[0] == first
    && Enabled(false, s, first) && run[1] == Apply(false, s, first)
    && Disciplined(run[1..], moves[1..])
  }

  ghost predicate Disciplined(run: seq<Sys>, moves: seq<Move>)
  {
    && |run| == |moves| + 1
    && forall k :: 0 <= k < |moves| ==> Enabled(true, run[k], moves[k]) && run[k + 1] == Apply(true, run[k], moves[k])
  }

  lemma {:induction false} DisciplineIsSafe(run: seq<Sys>, moves: seq<Move>, k: nat)
    requires Disciplined(run, moves) && Inv(true, run[0]) && k < |run|
    ensures Inv(true, run[k])
  {
    hide Apply, Enabled, Inv;
    if k > 0 {
      DisciplineIsSafe(run, moves, k - 1);
      MoveKeepsInv(true, run[k - 1], moves[k - 1]);
    }
  }

  /** The watcher is being torn down with its read in the kernel, while the completion of a caller's
      write on it is at position p of the queue. */
  ghost predicate Stranded(s: Sys, w: nat, b: nat, p: nat)
  {
    && Inv(false, s) && !s.io.kernelFault
    && w in s.io.watchers && s.io.watchers[w].hasCallback && s.io.watchers[w].data == Some(b)
    && b in s.io.heap && s.io.heap[b].stopping && W.Lent(w, b) in s.io.lent
    && s.port.Done() <= p < |s.port.History()| && S.IsWrite(s.port.History()[p], w)
    && forall i :: s.port.Done() <= i < |s.port.History()| ==> !S.IsRead(s.port.History()[i], w)
  }

  lemma ModeIsNoMatter(s: Sys, m: Move)
    requires Enabled(true, s, m) && Enabled(false, s, m)
    ensures Apply(true, s, m) == Apply(false, s, m)
  {
    hide S.Enabled, T.Enabled, T.Next;
  }

  lemma DispatchSpares(s: Sys, plan: W.Plan, w: nat)
    requires Inv(false, s) && Enabled(false, s, Io(S.DispatchIo(plan))) && w in s.io.watchers && !S.Keyed(s.port.batch[0], w)
    ensures var t := Apply(false, s, Io(S.DispatchIo(plan))); S.Same(s.io, t.io, w) && t.io.kernelFault == s.io.kernelFault
  {
    var p := s.port.batch[0];
    TakesHead(s.port);
    assert S.Good(false, s.port.History(), s.port.Done(), s.io, p.watcher);
    DispatchIsNext(false, s, plan);
    S.InvIsApart(false, s.port.History(), s.port.Done(), s.io, p.watcher);
    S.DispatchIsLocal(s.io, p.watcher, p.overlapped, p.bytes, plan);
    hide W.Dispatch, S.Good, Inv, Apply, Enabled;
  }

  /** A loop move that is not about watcher w posts nothing, and changes nothing of w. */
  lemma LoopMoveSpares(s: Sys, w: nat)
    requires Inv(false, s) && s.port.Done() < |s.port.History()| && w in s.io.watchers
    requires LoopMove(s).Io? ==> !S.Keyed(s.port.batch[0], w)
    requires Enabled(false, s, LoopMove(s))
    ensures var t := Apply(false, s, LoopMove(s));
            && S.Same(s.io, t.io, w) && t.io.kernelFault == s.io.kernelFault
            && t.port.History() == s.port.History()
            && (t.port.Done() == s.port.Done()
                || (t.port.Done() == s.port.Done() + 1 && s.port.batch != [] && s.timers.loopAt.Between?
                    && s.port.History()[s.port.Done()] == s.port.batch[0]))
  {
    if s.port.batch != [] {
      TakesHead(s.port);
    }
    match LoopMove(s)
    case Fetch(n) =>
      P.MoveKeepsOrder(s.port, P.Fetch(n));
      assert s.port.History() + [] == s.port.History();
    case Io(step) =>
      DispatchSpares(s, step.plan, w);
    case Timer(step) =>
      assert s.port.History() + [] == s.port.History();
    case SkipPacket =>
    case EnterLoop(_) =>
    case PostWake =>
  }

  /** The loop has got as far as a packet of watcher w. */
  predicate AtPacketOf(s: Sys, w: nat) { s.timers.loopAt.Between? && s.port.batch != [] && S.Keyed(s.port.batch[0], w) }

  /** The loop's next move, which is by the callers' rules whatever they did before. */
  lemma LoopTakes(s: Sys) returns (m: Move, t: Sys)
    requires Inv(false, s) && s.port.Done() < |s.port.History()|
    ensures m == LoopMove(s) && OfLoop(m) && Enabled(true, s, m) && t == Apply(true, s, m)
    ensures Enabled(false, s, m) && t == Apply(false, s, m) && Inv(false, t)
  {
    hide Apply, Enabled, Inv;
    m := LoopMove(s);
    LoopMoveIsEnabled(false, false, s);
    LoopMoveIsEnabled(false, true, s);
    ModeIsNoMatter(s, m);
    MoveKeepsInv(false, s, m);
    t := Apply(true, s, m);
  }

  lemma StrandedStep(s: Sys, w: nat, b: nat, p: nat) returns (m: Move, t: Sys)
    requires Stranded(s, w, b, p) && !AtPacketOf(s, w)
    ensures Enabled(true, s, m) && t == Apply(true, s, m) && Stranded(t, w, b, p) && Remaining(t, p) < Remaining(s, p)
  {
    hide Apply, Enabled, Inv;
    m, t := LoopTakes(s);
    LoopMoveSpares(s, w);
    MoveLowersRemaining(false, s, m, p);
  }

  lemma StrandedEnds(s: Sys, w: nat, b: nat, p: nat) returns (m: Move, t: Sys, m': Move, t': Sys)
    requires Stranded(s, w, b, p) && AtPacketOf(s, w)
    ensures Enabled(true, s, m) && t == Apply(true, s, m)
    ensures Enabled(true, t, m') && t' == Apply(true, t, m') && t'.io.kernelFault
  {
    m := LoopMove(s);
    LoopMoveIsEnabled(false, false, s);
    LoopMoveIsEnabled(false, true, s);
    ModeIsNoMatter(s, m);
    TakesHead(s.port);
    t := Apply(true, s, m);
    DispatchIsNext(true, s, m.step.plan);
    assert t.io == W.Free(s.io, w, b);
    m' := Io(S.CompleteRead(W.Lent(w, b), W.Cancelled, []));
    t' := CompletedIntoFreed(t, w, b);
  }

  lemma CompletedIntoFreed(t: Sys, w: nat, b: nat) returns (t': Sys)
    requires W.Lent(w, b) in t.io.lent && b !in t.io.heap
    ensures Enabled(true, t, Io(S.CompleteRead(W.Lent(w, b), W.Cancelled, [])))
    ensures t' == Apply(true, t, Io(S.CompleteRead(W.Lent(w, b), W.Cancelled, []))) && t'.io.kernelFault
  {
    t' := Apply(true, t, Io(S.CompleteRead(W.Lent(w, b), W.Cancelled, [])));
  }

  /** From there the loop reaches the write's completion, which frees the block, and then the kernel
      completes the read into freed memory. */
  lemma {:induction false} StrandedFaults(s: Sys, w: nat, b: nat, p: nat) returns (run: seq<Sys>, moves: seq<Move>)
    requires Stranded(s, w, b, p)
    ensures Disciplined(run, moves) && run[0] == s && run[|moves|].io.kernelFault
    decreases Remaining(s, p)
  {
    hide Apply, Enabled, Stranded;
    if AtPacketOf(s, w) {
      var m, t, m', t' := StrandedEnds(s, w, b, p);
      run, moves := [s, t, t'], [m, m'];
    } else {
      var m, t := StrandedStep(s, w, b, p);
      run, moves := StrandedFaults(t, w, b, p);
      run, moves := Preceded(s, m, run, moves);
    }
  }

  lemma Preceded(s: Sys, m: Move, run: seq<Sys>, moves: seq<Move>) returns (run': seq<Sys>, moves': seq<Move>)
    requires Disciplined(run, moves) && Enabled(true, s, m) && run[0] == Apply(true, s, m)
    ensures Disciplined(run', moves') && run' == [s] + run && moves' == [m] + moves
  {
    hide Apply, Enabled;
    run', moves' := [s] + run, [m] + moves;
  }

  lemma SysLaxlyToo(s: Sys)
    requires Inv(true, s)
    ensures Inv(false, s)
  {
    hide S.Homed, S.Sound, S.Anchored, T.Inv;
  }

  /** What a stop finds and leaves when the watcher's read is with the kernel. */
  lemma HaltLeavesRead(s: Sys, w: nat, b: nat, thread: nat)
    requires Inv(true, s) && w in s.io.watchers && s.io.watchers[w].active && W.Lent(w, b) in s.io.lent && thread > 0
    ensures Enabled(false, s, Io(S.Halt(w, thread)))
    ensures var t := Apply(false, s, Io(S.Halt(w, thread)));
            && Inv(false, t) && !t.io.kernelFault && t.port == s.port
            && w in t.io.watchers && t.io.watchers[w].hasCallback == s.io.watchers[w].hasCallback && t.io.watchers[w].data == Some(b)
            && b in t.io.heap && t.io.heap[b].stopping && t.io.lent == s.io.lent && t.io.writing == s.io.writing
            && forall i :: s.port.Done() <= i < |s.port.History()| ==> !S.IsRead(s.port.History()[i], w)
  {
    assert S.Good(true, s.port.History(), s.port.Done(), s.io, w);
    assert S.OwnsRead(s.io, w, b);
    SysLaxlyToo(s);
    MoveKeepsInv(false, s, Io(S.Halt(w, thread)));
    HaltIs(s, w, thread);
    S.StopSelf(s.io, w, thread);
    hide Inv, Apply, Enabled, W.Stop;
    forall i | s.port.Done() <= i < |s.port.History()| ensures !S.IsRead(s.port.History()[i], w) {
      assert S.Lending(s.port.History(), s.port.Done(), s.io, w);
    }
  }

  lemma HaltIs(s: Sys, w: nat, thread: nat)
    requires w in s.io.watchers && thread > 0
    ensures Enabled(false, s, Io(S.Halt(w, thread)))
    ensures var t := Apply(false, s, Io(S.Halt(w, thread))); t.port == s.port && t.io == W.Stop(s.io, w, thread)
  {
    assert s.port.queue + [] == s.port.queue;
  }

  lemma WriteQueued(t: Sys, w: nat) returns (u: Sys)
    requires Inv(false, t) && w in t.io.writing
    ensures Enabled(true, t, Io(S.KernelWrite(w, 0, 0))) && u == Apply(true, t, Io(S.KernelWrite(w, 0, 0))) && Inv(false, u)
    ensures u.io == t.io.(writing := t.io.writing - multiset{w}) && u.port.Done() == t.port.Done()
    ensures u.port.History() == t.port.History() + [P.IoDone(w, P.Callers(0), 0)]
  {
    u := Apply(true, t, Io(S.KernelWrite(w, 0, 0)));
    ModeIsNoMatter(t, Io(S.KernelWrite(w, 0, 0)));
    MoveKeepsInv(false, t, Io(S.KernelWrite(w, 0, 0)));
  }

  /** Stopping with a write outstanding, while the kernel holds the watcher's read, has a continuation in
      which every later move respects the callers' rules and the kernel writes into freed memory. */
  lemma StopWithWriteFaults(s: Sys, w: nat, b: nat, thread: nat) returns (run: seq<Sys>, moves: seq<Move>)
    requires Inv(true, s) && w in s.io.watchers && s.io.watchers[w].active && s.io.watchers[w].hasCallback && thread > 0
    requires W.Lent(w, b) in s.io.lent && !S.NoWrites(s.port.History(), s.port.Done(), s.io, w)
    ensures Continues(s, Io(S.Halt(w, thread)), run, moves) && run[|moves|].io.kernelFault
  {
    hide Apply, Enabled, Inv;
    var m := Io(S.Halt(w, thread));
    HaltLeavesRead(s, w, b, thread);
    var t := Apply(false, s, m);
    if w in s.io.writing {
      var u := WriteQueued(t, w);
      run, moves := StrandedFaults(u, w, b, |t.port.History()|);
      run, moves := Preceded(t, Io(S.KernelWrite(w, 0, 0)), run, moves);
    } else {
      var i :| s.port.Done() <= i < |s.port.History()| && S.IsWrite(s.port.History()[i], w);
      run, moves := StrandedFaults(t, w, b, i);
    }
    run, moves := Started(s, m, run, moves);
  }

  lemma Started(s: Sys, m: Move, run: seq<Sys>, moves: seq<Move>) returns (run': seq<Sys>, moves': seq<Move>)
    requires Disciplined(run, moves) && Enabled(false, s, m) && run[0] == Apply(false, s, m)
    ensures Continues(s, m, run', moves') && run'[|moves'|] == run[|moves|]
  {
    hide Apply, Enabled;
    run', moves' := [s] + run, [m] + moves;
    assert run'[1..] == run && moves'[1..] == moves;
  }

  /** Let the kernel hold the read of an active watcher with a callback.  Stopping the watcher can lead to a
      kernel write into freed memory, with every later move by the rules, if and only if a caller's write
      is outstanding at the stop. */
  lemma StopUnderReadIsSafeIff(s: Sys, w: nat, b: nat, thread: nat)
    requires Inv(true, s) && w in s.io.watchers && s.io.watchers[w].active && s.io.watchers[w].hasCallback && thread > 0
    requires W.Lent(w, b) in s.io.lent
    ensures (exists run: seq<Sys>, moves: seq<Move> :: Continues(s, Io(S.Halt(w, thread)), run, moves) && run[|moves|].io.kernelFault)
            <==> !S.NoWrites(s.port.History(), s.port.Done(), s.io, w)
  {
    hide Apply, Enabled, Inv, S.NoWrites;
    if S.NoWrites(s.port.History(), s.port.Done(), s.io, w) {
      forall run: seq<Sys>, moves: seq<Move> | Continues(s, Io(S.Halt(w, thread)), run, moves) ensures !run[|moves|].io.kernelFault {
        StopByTheRuleIsSafe(s, w, thread, run, moves);
      }
    } else {
      var run, moves := StopWithWriteFaults(s, w, b, thread);
    }
  }

  /** No continuation of a stop by the rule ever touches freed memory. */
  lemma StopByTheRuleIsSafe(s: Sys, w: nat, thread: nat, run: seq<Sys>, moves: seq<Move>)
    requires Inv(true, s) && w in s.io.watchers && thread > 0 && S.MayStop(s.port.History(), s.port.Done(), s.io, w, thread)
    requires Continues(s, Io(S.Halt(w, thread)), run, moves)
    ensures !run[|moves|].io.kernelFault && !run[|moves|].io.loopFault
  {
    var m := Io(S.Halt(w, thread));
    assert Enabled(true, s, m);
    ModeIsNoMatter(s, m);
    MoveKeepsInv(true, s, m);
    hide Apply, Enabled;
    DisciplineIsSafe(run[1..], moves[1..], |moves| - 1);
  }
}
