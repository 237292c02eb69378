/** The rules that IOCP callers must keep: what exactly goes wrong without them, and runs from the freshly
    created loop in which it does. */
module IocpRules {
  import P = IocpPort
  import W = IocpWatcher
  import S = IocpSafety
  import T = IocpTimer
  import opened Iocp
  import opened IocpResults
  import opened IocpWrites
  import opened IocpStops
  import opened Options

  /* ---------------- updating in a READ callback ---------------- */

  /** A READ callback must not issue a read by updating its own watcher: that, and nothing else that it may
      do short of destroying the watcher, loses read-buffer safety.  The re-arm after the callback does
      not look at the pending flag.  It clears the OVERLAPPED that the kernel is using, and then either
      issues it a second time, or, when its own issue fails, retracts the flag of a read in flight. */
  lemma UpdateInReadCallbackIsSafeIff(log: seq<P.Packet>, done: nat, s: W.World, plan: W.Plan)
    requires S.Inv(true, log, done, s) && done < |log| && S.RaisesRead(s, log[done]) && log[done].bytes <= W.BUFFER_SIZE
    requires s.watchers[log[done].watcher].hasCallback && s.watchers[log[done].watcher].active
    requires !plan.after.DestroySelf? && (plan.after.StopSelf? ==> S.NoWrites(log, done + 1, s, log[done].watcher))
    ensures var p := log[done];
            S.Inv(true, log, done + 1, W.Dispatch(s, p.watcher, p.overlapped, p.bytes, plan)) <==> plan.after != W.UpdateSelf(true, true)
  {
    var p := log[done];
    var w, b := p.watcher, p.overlapped.block;
    if plan.after == W.UpdateSelf(true, true) {
      assert S.Good(true, log, done, s, w);
      S.TakenIsLast(log, done, s, w);
      S.SoundAfterConsume(s, w, b, p.bytes, plan.lens);
      S.ThoroughOnly(s, w, b, p.bytes, plan.lens);
      ReadIsOut(s, w, b, W.Consume(s, w, b, p.bytes, plan.lens), plan);
      var t := W.Dispatch(s, w, p.overlapped, p.bytes, plan);
      assert t == W.Rearm(W.RunAfter(W.Consume(s, w, b, p.bytes, plan.lens), w, plan.after), w, W.Read, plan.reissued);
      NotLending(log, done + 1, t, w, b);
    } else {
      S.DispatchKeepsInv(true, log, done, s, plan);
    }
  }

  /** The update has issued a read, and the re-arm has issued it again or unmarked it. */
  lemma ReadIsOut(s: W.World, w: nat, b: nat, s1: W.World, plan: W.Plan)
    requires s1.lent == s.lent && plan.after == W.UpdateSelf(true, true)
    requires w in s1.watchers && S.Sound(s1, w) && s1.watchers[w].active && s1.watchers[w].data == Some(b) && !s1.heap[b].pending
    ensures var t := W.Rearm(W.RunAfter(s1, w, plan.after), w, W.Read, plan.reissued);
            && w in t.watchers && t.watchers[w].data == Some(b) && b in t.heap && W.Lent(w, b) in t.lent
            && (t.lent[W.Lent(w, b)] > 1 || !t.heap[b].pending)
  {
  }

  lemma NotLending(log: seq<P.Packet>, done: nat, t: W.World, w: nat, b: nat)
    requires w in t.watchers && t.watchers[w].data == Some(b) && b in t.heap && W.Lent(w, b) in t.lent
    requires t.lent[W.Lent(w, b)] > 1 || !t.heap[b].pending
    ensures !S.Inv(true, log, done, t)
  {
    assert !S.Lending(log, done, t, w);
    assert !S.Good(true, log, done, t, w);
  }

  /** The case in which both reach the kernel: it is handed the same OVERLAPPED twice. */
  lemma UpdateInReadCallbackArmsTwice(log: seq<P.Packet>, done: nat, s: W.World, plan: W.Plan)
    requires S.Inv(true, log, done, s) && done < |log| && S.RaisesRead(s, log[done]) && log[done].bytes <= W.BUFFER_SIZE
    requires s.watchers[log[done].watcher].hasCallback && s.watchers[log[done].watcher].active
    ensures var p := log[done];
            var t := W.Dispatch(s, p.watcher, p.overlapped, p.bytes, plan);
            t.lent[W.Lent(p.watcher, p.overlapped.block)] <= 1 <==> !(plan.after == W.UpdateSelf(true, true) && plan.reissued)
  {
    var p := log[done];
    var w, b := p.watcher, p.overlapped.block;
    assert S.Good(true, log, done, s, w);
    S.TakenIsLast(log, done, s, w);
    S.SoundAfterConsume(s, w, b, p.bytes, plan.lens);
    S.ThoroughOnly(s, w, b, p.bytes, plan.lens);
    ReadIsRearmed(s, w, b, W.Consume(s, w, b, p.bytes, plan.lens), plan);
  }

  /** After the completion was consumed, no read of the watcher is outstanding; the callback's update
      and the re-arm each issue one. */
  lemma ReadIsRearmed(s: W.World, w: nat, b: nat, s1: W.World, plan: W.Plan)
    requires s.lent[W.Lent(w, b)] == 0 && s1.lent == s.lent
    requires w in s1.watchers && S.Sound(s1, w) && s1.watchers[w].active && s1.watchers[w].data == Some(b) && !s1.heap[b].pending
    ensures var t := W.Rearm(W.RunAfter(s1, w, plan.after), w, W.Read, plan.reissued);
            t.lent[W.Lent(w, b)] <= 1 <==> !(plan.after == W.UpdateSelf(true, true) && plan.reissued)
  {
    if plan.after.StopSelf? || plan.after.DestroySelf? {
      EndedIsNotRearmed(s1, w, b, plan);
    }
  }

  lemma EndedIsNotRearmed(s1: W.World, w: nat, b: nat, plan: W.Plan)
    requires w in s1.watchers && S.Sound(s1, w) && s1.watchers[w].active && s1.watchers[w].data == Some(b) && !s1.heap[b].pending
    requires plan.after.StopSelf? || plan.after.DestroySelf?
    ensures W.Rearm(W.RunAfter(s1, w, plan.after), w, W.Read, plan.reissued).lent == s1.lent
  {
    S.StopSelf(s1, w, s1.loopThread);
    hide W.Stop, W.Arm;
  }

  /* ---------------- a watcher with its first read in the kernel ---------------- */

  const ZERO: W.Buffer := seq(W.BUFFER_SIZE, _ => 0)
  const WATCHER := W.Watcher(true, true, Some(2), W.Running, [], [], [], true)
  const BLOCK := W.WatcherData(1, true, false, ZERO, 0, W.Success, false)

  /** Watcher 1, whose read is lent out of block 2; the loop thread is lt, or has not run yet. */
  function With(lt: nat, x: W.Watcher, d: W.WatcherData): Sys
  {
    Sys(P.EMPTY, W.World(map[2 := d], {}, map[1 := x], {}, multiset{W.Lent(1, 2)}, multiset{}, [], lt, false, false), T.START.(loopThread := lt))
  }

  /** The fresh loop, with this loop thread. */
  function Looping(lt: nat): Sys
  {
    START.(io := START.io.(loopThread := lt), timers := START.timers.(loopThread := lt))
  }

  lemma Extended(run: seq<Sys>, moves: seq<Move>, m: Move, s: Sys) returns (run': seq<Sys>, moves': seq<Move>)
    requires IsRun(true, run, moves) && Enabled(true, run[|moves|], m) && s == Apply(true, run[|moves|], m)
    ensures IsRun(true, run', moves') && run'[|moves'|] == s && run' == run + [s] && moves' == moves + [m]
  {
    hide Apply, Enabled;
    run', moves' := run + [s], moves + [m];
  }

  lemma Entered(lt: nat) returns (run: seq<Sys>, moves: seq<Move>)
    ensures IsRun(true, run, moves) && run[|moves|] == Looping(lt)
  {
    run, moves := [START], [];
    if lt > 0 {
      run, moves := Extended(run, moves, EnterLoop(lt), Looping(lt));
    } else {
      assert Looping(0) == START;
    }
  }

  lemma CreateArms(lt: nat)
    ensures var s := Looping(lt);
            && Enabled(true, s, Io(S.Create(1, 2, true, true)))
            && Apply(true, s, Io(S.Create(1, 2, true, true))) == With(lt, WATCHER, BLOCK)
  {
    var s := Looping(lt);
    var t := Apply(true, s, Io(S.Create(1, 2, true, true)));
    assert t.io.watchers == map[1 := WATCHER];
    assert t.io.heap == map[2 := BLOCK];
    assert t.io.lent == multiset{W.Lent(1, 2)};
    assert t.port == P.EMPTY;
  }

  lemma ArmedRun(lt: nat) returns (run: seq<Sys>, moves: seq<Move>)
    ensures IsRun(true, run, moves) && run[|moves|] == With(lt, WATCHER, BLOCK)
  {
    run, moves := Entered(lt);
    CreateArms(lt);
    run, moves := Extended(run, moves, Io(S.Create(1, 2, true, true)), With(lt, WATCHER, BLOCK));
  }

  /* ---------------- freeing a watcher too early ---------------- */

  /** The block is stopping and its read is not over; when pd_watcher_destroy goes on to free the struct
      now, the completion that the cancel forces is dispatched through the freed struct. */
  ghost predicate FreedTooEarly(s: Sys)
  {
    && 1 in s.io.watchers && !s.io.watchers[1].active && S.Sound(s.io, 1) && s.io.watchers[1].data == Some(2)
    && !S.ReadIsOver(s.port.History(), s.port.Done(), s.io, 1)
    && W.Dispatch(W.KernelRead(W.Release(s.io, 1), W.Lent(1, 2), W.Cancelled, []), 1, P.Embedded(2), 0, W.Plan([], W.Return, true)).loopFault
  }

  function Halted(phase: W.Phase): W.Watcher { WATCHER.(active := false, phase := phase) }

  lemma HaltArmed(lt: nat, thread: nat)
    requires thread > 0
    ensures var s := With(lt, WATCHER, BLOCK);
            && Enabled(true, s, Io(S.Halt(1, thread)))
            && Apply(true, s, Io(S.Halt(1, thread)))
               == With(lt, Halted(if lt != 0 && thread != lt then W.MustDrain(thread) else W.Stopped), BLOCK.(stopping := true))
  {
    var s := With(lt, WATCHER, BLOCK);
    var t := Apply(true, s, Io(S.Halt(1, thread)));
    assert t.io.heap == map[2 := BLOCK.(stopping := true)];
    assert t.io.watchers == map[1 := Halted(if lt != 0 && thread != lt then W.MustDrain(thread) else W.Stopped)];
    assert t.port == P.EMPTY;
  }

  lemma HaltedIsTooEarly(lt: nat, phase: W.Phase)
    requires phase.Stopped? || phase.GaveUp?
    ensures FreedTooEarly(With(lt, Halted(phase), BLOCK.(stopping := true)))
  {
  }

  /** The loop has not run yet, so that unregister takes no thread for another one and makes no drain. */
  lemma DestroyBeforeTheLoopRan() returns (run: seq<Sys>, moves: seq<Move>)
    ensures IsRun(true, run, moves) && run[|moves|].io.loopThread == 0 && FreedTooEarly(run[|moves|])
  {
    run, moves := ArmedRun(0);
    HaltArmed(0, 9);
    HaltedIsTooEarly(0, W.Stopped);
    run, moves := Extended(run, moves, Io(S.Halt(1, 9)), With(0, Halted(W.Stopped), BLOCK.(stopping := true)));
  }

  /** Destroyed on the loop thread, which must not wait for a drain. */
  lemma DestroyOnTheLoopThread() returns (run: seq<Sys>, moves: seq<Move>)
    ensures IsRun(true, run, moves) && |moves| > 0 && moves[|moves| - 1] == Io(S.Halt(1, 7)) && run[|moves|].io.loopThread == 7
    ensures FreedTooEarly(run[|moves|])
  {
    run, moves := ArmedRun(7);
    HaltArmed(7, 7);
    HaltedIsTooEarly(7, W.Stopped);
    run, moves := Extended(run, moves, Io(S.Halt(1, 7)), With(7, Halted(W.Stopped), BLOCK.(stopping := true)));
  }

  /** The drain timed out. */
  lemma DestroyAfterTimeout() returns (run: seq<Sys>, moves: seq<Move>)
    ensures IsRun(true, run, moves) && run[|moves|].io.watchers.Keys == {1} && run[|moves|].io.watchers[1].phase.GaveUp?
    ensures FreedTooEarly(run[|moves|])
  {
    run, moves := ArmedRun(7);
    HaltArmed(7, 9);
    HaltedIsTooEarly(7, W.GaveUp);
    var owing := With(7, Halted(W.MustDrain(9)), BLOCK.(stopping := true));
    run, moves := Extended(run, moves, Io(S.Halt(1, 9)), owing);
    TimesOut(owing);
    run, moves := Extended(run, moves, Io(S.SyncTimedOut(1)), With(7, Halted(W.GaveUp), BLOCK.(stopping := true)));
  }

  lemma TimesOut(s: Sys)
    requires s == With(7, Halted(W.MustDrain(9)), BLOCK.(stopping := true))
    ensures Enabled(true, s, Io(S.SyncTimedOut(1)))
    ensures Apply(true, s, Io(S.SyncTimedOut(1))) == With(7, Halted(W.GaveUp), BLOCK.(stopping := true))
  {
    var t := Apply(true, s, Io(S.SyncTimedOut(1)));
    assert t.io.watchers == map[1 := Halted(W.GaveUp)];
    assert t.port == P.EMPTY;
  }

  /* ---------------- callbacks of a read ---------------- */

  const READ_DONE := P.IoDone(1, P.Embedded(2), 1)

  /** One byte was read into block 2, and its completion is at the head of the batch. */
  ghost predicate ReadToDispatch(s: Sys)
  {
    && s.port.Done() == 0 && s.port.History() == [READ_DONE] && s.port.batch == [READ_DONE] && s.timers.loopAt.Between?
    && 1 in s.io.watchers && s.io.watchers[1].active && s.io.watchers[1].hasCallback && S.RaisesRead(s.io, READ_DONE)
    && S.Heard(s.io, READ_DONE) && S.NoWrites([READ_DONE], 1, s.io, 1)
  }

  lemma ReadCompletes(s: Sys) returns (s1: Sys, s2: Sys)
    requires s == With(7, WATCHER, BLOCK)
    ensures Enabled(true, s, Io(S.CompleteRead(W.Lent(1, 2), W.Success, [0]))) && s1 == Apply(true, s, Io(S.CompleteRead(W.Lent(1, 2), W.Success, [0])))
    ensures Enabled(true, s1, Fetch(1)) && s2 == Apply(true, s1, Fetch(1)) && ReadToDispatch(s2)
  {
    s1 := Apply(true, s, Io(S.CompleteRead(W.Lent(1, 2), W.Success, [0])));
    assert s1.port == P.Port([], [], [READ_DONE]);
    s2 := Apply(true, s1, Fetch(1));
    assert s2.port == P.Port([], [READ_DONE], []);
  }

  lemma ReadRun() returns (run: seq<Sys>, moves: seq<Move>)
    ensures IsRun(true, run, moves) && ReadToDispatch(run[|moves|])
  {
    run, moves := ArmedRun(7);
    var s1, s2 := ReadCompletes(run[|moves|]);
    run, moves := Extended(run, moves, Io(S.CompleteRead(W.Lent(1, 2), W.Success, [0])), s1);
    run, moves := Extended(run, moves, Fetch(1), s2);
  }

  /** A READ callback that re-registers its read: the kernel then holds the OVERLAPPED twice. */
  lemma UpdateInCallbackRun() returns (run: seq<Sys>, moves: seq<Move>)
    ensures IsRun(true, run, moves) && ReadToDispatch(run[|moves|])
    ensures W.Dispatch(run[|moves|].io, 1, P.Embedded(2), 1, W.Plan([1], W.UpdateSelf(true, true), true)).lent[W.Lent(1, 2)] > 1
  {
    run, moves := ReadRun();
    RunIsSafe(true, run, moves, |moves|);
    UpdateInReadCallbackArmsTwice([READ_DONE], 0, run[|moves|].io, W.Plan([1], W.UpdateSelf(true, true), true));
  }

  /** A READ callback that re-registers its read, when the re-arm fails: the read in flight is no longer
      marked, so that a stop frees the block under it.  Every move after that dispatch is by the rules,
      and the kernel writes into freed memory. */
  lemma UnmarkedReadRun() returns (run: seq<Sys>, moves: seq<Move>, rest: seq<Sys>, after: seq<Move>)
    ensures IsRun(true, run, moves) && ReadToDispatch(run[|moves|])
    ensures Continues(run[|moves|], Io(S.DispatchIo(W.Plan([1], W.UpdateSelf(true, true), false))), rest, after)
    ensures rest[|after|].io.kernelFault
  {
    hide Apply, Enabled, Inv;
    run, moves := ReadRun();
    RunIsSafe(true, run, moves, |moves|);
    var s := run[|moves|];
    var m := Io(S.DispatchIo(W.Plan([1], W.UpdateSelf(true, true), false)));
    var t := Unmarked(s);
    var t1, t2 := StoppedUnderRead(t);
    rest, after := [t2], [];
    rest, after := Preceded(t1, Io(S.CompleteRead(W.Lent(1, 2), W.Cancelled, [])), rest, after);
    rest, after := Preceded(t, Io(S.Halt(1, 9)), rest, after);
    rest, after := Started(s, m, rest, after);
  }

  /** The kernel holds the read in block 2 of the active watcher 1, but the block is not marked pending. */
  ghost predicate UnderRead(s: Sys)
  {
    && 1 in s.io.watchers && s.io.watchers[1].active && s.io.watchers[1].data == Some(2)
    && 2 in s.io.heap && !s.io.heap[2].pending && !s.io.heap[2].stopping
    && W.Lent(1, 2) in s.io.lent && S.NoWrites(s.port.History(), s.port.Done(), s.io, 1)
  }

  lemma Unmarked(s: Sys) returns (t: Sys)
    requires ReadToDispatch(s) && Inv(true, s)
    ensures Enabled(false, s, Io(S.DispatchIo(W.Plan([1], W.UpdateSelf(true, true), false))))
    ensures t == Apply(false, s, Io(S.DispatchIo(W.Plan([1], W.UpdateSelf(true, true), false)))) && UnderRead(t)
  {
    var plan := W.Plan([1], W.UpdateSelf(true, true), false);
    t := Apply(false, s, Io(S.DispatchIo(plan)));
    DispatchIsNext(false, s, plan);
    TakesHead(s.port);
    UnmarkedBlock([READ_DONE], s.io, plan, t.io);
  }

  lemma UnmarkedBlock(log: seq<P.Packet>, io: W.World, plan: W.Plan, t: W.World)
    requires S.Inv(true, log, 0, io) && log == [READ_DONE] && S.RaisesRead(io, READ_DONE) && io.watchers[1].active && io.watchers[1].hasCallback
    requires plan == W.Plan([1], W.UpdateSelf(true, true), false) && t == W.Dispatch(io, 1, P.Embedded(2), 1, plan)
    requires S.NoWrites(log, 1, io, 1)
    ensures 1 in t.watchers && t.watchers[1].active && t.watchers[1].data == Some(2)
    ensures 2 in t.heap && !t.heap[2].pending && !t.heap[2].stopping && W.Lent(1, 2) in t.lent && S.NoWrites(log, 1, t, 1)
  {
    assert S.Good(true, log, 0, io, 1);
    S.SoundAfterConsume(io, 1, 2, 1, [1]);
    S.ThoroughOnly(io, 1, 2, 1, [1]);
    hide W.DrainMany;
    var s1 := W.Consume(io, 1, 2, 1, [1]);
    hide W.Consume;
    RearmUnmarks(s1);
    assert t == W.Rearm(W.RunAfter(s1, 1, plan.after), 1, W.Read, false);
  }

  lemma RearmUnmarks(s1: W.World)
    requires 1 in s1.watchers && S.Sound(s1, 1) && s1.watchers[1].active && s1.watchers[1].data == Some(2) && !s1.heap[2].pending
    ensures 1 in W.RunAfter(s1, 1, W.UpdateSelf(true, true)).watchers
    ensures var t := W.Rearm(W.RunAfter(s1, 1, W.UpdateSelf(true, true)), 1, W.Read, false);
            && 1 in t.watchers && t.watchers[1].active && t.watchers[1].data == Some(2)
            && 2 in t.heap && !t.heap[2].pending && !t.heap[2].stopping && W.Lent(1, 2) in t.lent && t.writing == s1.writing
  {
  }

  lemma StoppedUnderRead(t: Sys) returns (t1: Sys, t2: Sys)
    requires UnderRead(t)
    ensures Enabled(true, t, Io(S.Halt(1, 9))) && t1 == Apply(true, t, Io(S.Halt(1, 9)))
    ensures Enabled(true, t1, Io(S.CompleteRead(W.Lent(1, 2), W.Cancelled, [])))
    ensures t2 == Apply(true, t1, Io(S.CompleteRead(W.Lent(1, 2), W.Cancelled, []))) && t2.io.kernelFault
  {
    t1 := Apply(true, t, Io(S.Halt(1, 9)));
    assert W.Lent(1, 2) in t1.io.lent && 2 !in t1.io.heap;
    t2 := CompletedIntoFreed(t1, 1, 2);
  }

  /** A READ callback that destroys its own watcher: the loop then reads the freed struct. */
  lemma DestroyInCallbackRun() returns (run: seq<Sys>, moves: seq<Move>)
    ensures IsRun(true, run, moves) && ReadToDispatch(run[|moves|])
    ensures W.Dispatch(run[|moves|].io, 1, P.Embedded(2), 1, W.Plan([1], W.DestroySelf, true)).loopFault
  {
    run, moves := ReadRun();
    RunIsSafe(true, run, moves, |moves|);
    S.DestroyInCallbackIsSafeIff([READ_DONE], 0, run[|moves|].io, W.Plan([1], W.DestroySelf, true));
  }

  /* ---------------- a write outstanding at a stop ---------------- */

  lemma WriteBegins(s: Sys) returns (t: Sys)
    requires s == With(7, WATCHER, BLOCK)
    ensures Enabled(true, s, Io(S.BeginWrite(1))) && t == Apply(true, s, Io(S.BeginWrite(1)))
    ensures t.port == P.EMPTY && t.io == s.io.(writing := multiset{1})
  {
    t := Apply(true, s, Io(S.BeginWrite(1)));
    assert t.port == P.EMPTY;
  }

  /** A run in which a caller stops a watcher with a write outstanding.  Every other move is by the rules,
      and the kernel writes into freed memory. */
  lemma LateWriteCanFault() returns (run: seq<Sys>, moves: seq<Move>, rest: seq<Sys>, after: seq<Move>)
    ensures IsRun(true, run, moves) && Continues(run[|moves|], Io(S.Halt(1, 9)), rest, after) && rest[|after|].io.kernelFault
  {
    run, moves := ArmedRun(7);
    var t := WriteBegins(run[|moves|]);
    run, moves := Extended(run, moves, Io(S.BeginWrite(1)), t);
    RunIsSafe(true, run, moves, |moves|);
    rest, after := StopWithWriteFaults(t, 1, 2, 9);
  }

  /** Watcher 1 without a read, the caller's writes being these. */
  function Unread(d: W.WatcherData, writing: multiset<nat>): Sys
  {
    var s := With(7, WATCHER, d);
    s.(io := s.io.(lent := multiset{}, writing := writing))
  }

  lemma WriteOnly(s: Sys) returns (s1: Sys, s2: Sys)
    requires s == Looping(7)
    ensures Enabled(true, s, Io(S.Create(1, 2, true, false))) && s1 == Apply(true, s, Io(S.Create(1, 2, true, false)))
    ensures Enabled(true, s1, Io(S.BeginWrite(1))) && s2 == Apply(true, s1, Io(S.BeginWrite(1)))
    ensures s2 == Unread(BLOCK.(pending := false), multiset{1})
  {
    s1 := Apply(true, s, Io(S.Create(1, 2, true, false)));
    assert s1.io.watchers == map[1 := WATCHER] && s1.io.heap == map[2 := BLOCK.(pending := false)];
    assert s1.port == P.EMPTY;
    s2 := Apply(true, s1, Io(S.BeginWrite(1)));
    assert s2.port == P.EMPTY;
  }

  /** A run in which a caller stops a watcher that only writes, with a write outstanding.  Every other move
      is by the rules, and freed memory is touched. */
  lemma WriteOnlyCanFault() returns (run: seq<Sys>, moves: seq<Move>, rest: seq<Sys>, after: seq<Move>)
    ensures IsRun(true, run, moves) && run[|moves|].io.lent == multiset{}
    ensures Continues(run[|moves|], Io(S.Halt(1, 9)), rest, after) && Faulty(rest[|after|])
  {
    hide Apply, Enabled, Inv, S.MayStop, Faulty;
    run, moves := Entered(7);
    var s1, s2 := WriteOnly(run[|moves|]);
    run, moves := Extended(run, moves, Io(S.Create(1, 2, true, false)), s1);
    run, moves := Extended(run, moves, Io(S.BeginWrite(1)), s2);
    RunIsSafe(true, run, moves, |moves|);
    AgainstTheRule(s2);
    rest, after := StopAgainstTheRuleFaults(s2, 1, 9);
  }

  lemma AgainstTheRule(s: Sys)
    requires s == Unread(BLOCK.(pending := false), multiset{1})
    ensures !S.MayStop(s.port.History(), s.port.Done(), s.io, 1, 9)
  {
  }
}
