/** The rule for stopping an IOCP watcher is exact: a stop that breaks it can lead to an access to freed
    memory, however closely everyone keeps to the rules afterwards. */
module IocpStops {
  import P = IocpPort
  import W = IocpWatcher
  import S = IocpSafety
  import T = IocpTimer
  import opened Iocp
  import opened IocpResults
  import opened IocpDrain
  import opened IocpWrites
  import opened Options

  predicate Faulty(s: Sys) { s.io.loopFault || s.io.kernelFault }

  /** The kernel reports at most the buffer's size for a read, and the loop thread is not inside the
      destruction of a timer. */
  ghost predicate Sized(s: Sys)
  {
    s.timers.held.None? && forall i :: s.port.Done() <= i < |s.port.History()| && s.port.History()[i].IoDone? && s.port.History()[i].overlapped.Embedded? ==>
      s.port.History()[i].bytes <= W.BUFFER_SIZE
  }

  /** Something of watcher w is still to be dispatched: a packet in the batch or the queue, or one that
      the kernel will post for a write or a read that it holds. */
  ghost predicate Owed(s: Sys, w: nat)
  {
    || w in s.io.writing || (exists b :: W.Lent(w, b) in s.io.lent)
    || exists i :: s.port.Done() <= i < |s.port.History()| && S.Keyed(s.port.History()[i], w)
  }

  /* ---------------- once the struct is gone ---------------- */

  lemma SizedLoopMove(s: Sys)
    requires Sized(s) && s.port.Done() < |s.port.History()|
    ensures Enabled(true, s, LoopMove(s)) && OfLoop(LoopMove(s))
  {
    if s.port.batch != [] {
      TakesHead(s.port);
    }
  }

  lemma DispatchAddsNoWatcher(io: W.World, v: nat, ov: P.Overlapped, bytes: nat)
    requires ov.Embedded? ==> bytes <= W.BUFFER_SIZE
    ensures W.Dispatch(io, v, ov, bytes, W.Plan([], W.Return, true)).watchers.Keys == io.watchers.Keys
  {
    hide W.Consume, W.Rearm;
    if v in io.watchers && io.watchers[v].data.Some? && io.watchers[v].data.value in io.heap && ov.Embedded? {
      var b := io.watchers[v].data.value;
      ConsumeAddsNoWatcher(io, v, b, bytes);
      RearmAddsNoWatcher(W.Consume(io, v, b, bytes, []), v, W.EventOf(io.heap[b], bytes));
    }
  }

  lemma ConsumeAddsNoWatcher(io: W.World, v: nat, b: nat, n: W.Length)
    requires v in io.watchers && b in io.heap
    ensures W.Consume(io, v, b, n, []).watchers.Keys == io.watchers.Keys
  {
    hide W.DrainMany, W.EventOf;
  }

  lemma RearmAddsNoWatcher(io: W.World, v: nat, e: W.Event)
    ensures W.Rearm(io, v, e, true).watchers == io.watchers
  {
  }

  /** What a loop move leaves when watcher w does not exist. */
  lemma LoopMoveWithout(s: Sys, w: nat) returns (t: Sys)
    requires Sized(s) && w !in s.io.watchers && s.port.Done() < |s.port.History()|
    ensures Enabled(true, s, LoopMove(s)) && t == Apply(true, s, LoopMove(s))
    ensures Sized(t) && w !in t.io.watchers && t.port.History() == s.port.History()
    ensures t.port.Done() == s.port.Done()
            || (t.port.Done() == s.port.Done() + 1 && s.port.batch != [] && s.port.History()[s.port.Done()] == s.port.batch[0])
    ensures AtPacketOf(s, w) ==> t.io.loopFault
  {
    SizedLoopMove(s);
    t := Apply(true, s, LoopMove(s));
    if s.port.batch != [] {
      TakesHead(s.port);
    }
    match LoopMove(s)
    case Fetch(n) =>
      P.MoveKeepsOrder(s.port, P.Fetch(n));
      assert s.port.History() + [] == s.port.History();
    case Io(step) =>
      DispatchIsNext(true, s, step.plan);
      DispatchAddsNoWatcher(s.io, s.port.batch[0].watcher, s.port.batch[0].overlapped, s.port.batch[0].bytes);
    case Timer(step) => assert s.port.History() + [] == s.port.History();
    case SkipPacket =>
    case EnterLoop(_) =>
    case PostWake =>
  }

  /** The loop reaches a packet of a watcher that does not exist. */
  lemma {:induction false} GoneFaults(s: Sys, w: nat, p: nat) returns (run: seq<Sys>, moves: seq<Move>)
    requires Sized(s) && w !in s.io.watchers && s.port.Done() <= p < |s.port.History()| && S.Keyed(s.port.History()[p], w)
    ensures Disciplined(run, moves) && run[0] == s && Faulty(run[|moves|])
    decreases Remaining(s, p)
  {
    hide Apply, Enabled, Sized;
    var t := LoopMoveWithout(s, w);
    if AtPacketOf(s, w) {
      run, moves := [s, t], [LoopMove(s)];
    } else {
      HeadIsOther(s, w, p, t);
      MoveLowersRemaining(true, s, LoopMove(s), p);
      SizedLoopMove(s);
      run, moves := GoneFaults(t, w, p);
      run, moves := Preceded(s, LoopMove(s), run, moves);
    }
  }

  lemma HeadIsOther(s: Sys, w: nat, p: nat, t: Sys)
    requires Sized(s) && s.port.Done() <= p < |s.port.History()| && S.Keyed(s.port.History()[p], w) && !AtPacketOf(s, w)
    requires t == (if Enabled(true, s, LoopMove(s)) then Apply(true, s, LoopMove(s)) else s)
    requires t.port.Done() == s.port.Done()
             || (t.port.Done() == s.port.Done() + 1 && s.port.batch != [] && s.port.History()[s.port.Done()] == s.port.batch[0])
    ensures t.port.Done() <= p
  {
    SizedLoopMove(s);
    if s.port.batch != [] {
      TakesHead(s.port);
    }
  }

  lemma WriteArrives(s: Sys, w: nat) returns (t: Sys)
    requires w in s.io.writing && Sized(s)
    ensures Enabled(true, s, Io(S.KernelWrite(w, 0, 0))) && t == Apply(true, s, Io(S.KernelWrite(w, 0, 0)))
    ensures t.io == s.io.(writing := s.io.writing - multiset{w}) && t.port.Done() == s.port.Done() && Sized(t)
    ensures t.port.History() == s.port.History() + [P.IoDone(w, P.Callers(0), 0)]
  {
    t := Apply(true, s, Io(S.KernelWrite(w, 0, 0)));
  }

  lemma ReadArrives(s: Sys, w: nat, b: nat) returns (t: Sys)
    requires W.Lent(w, b) in s.io.lent && Sized(s)
    ensures Enabled(true, s, Io(S.CompleteRead(W.Lent(w, b), W.Cancelled, [])))
    ensures t == Apply(true, s, Io(S.CompleteRead(W.Lent(w, b), W.Cancelled, [])))
    ensures t.io == W.KernelRead(s.io, W.Lent(w, b), W.Cancelled, []) && t.port.Done() == s.port.Done() && Sized(t)
    ensures t.port.History() == s.port.History() + [P.IoDone(w, P.Embedded(b), 0)]
  {
    t := Apply(true, s, Io(S.CompleteRead(W.Lent(w, b), W.Cancelled, [])));
  }

  lemma OwedFaults(s: Sys, w: nat) returns (run: seq<Sys>, moves: seq<Move>)
    requires Sized(s) && w !in s.io.watchers && Owed(s, w)
    ensures Disciplined(run, moves) && run[0] == s && Faulty(run[|moves|])
  {
    hide Apply, Enabled, Sized;
    if i :| s.port.Done() <= i < |s.port.History()| && S.Keyed(s.port.History()[i], w) {
      run, moves := GoneFaults(s, w, i);
    } else if w in s.io.writing {
      var t := WriteArrives(s, w);
      run, moves := GoneFaults(t, w, |s.port.History()|);
      run, moves := Preceded(s, Io(S.KernelWrite(w, 0, 0)), run, moves);
    } else {
      var b :| W.Lent(w, b) in s.io.lent;
      var t := ReadArrives(s, w, b);
      S.KernelReadShape(s.io, W.Lent(w, b), W.Cancelled, []);
      hide W.KernelRead;
      run, moves := GoneFaults(t, w, |s.port.History()|);
      run, moves := Preceded(s, Io(S.CompleteRead(W.Lent(w, b), W.Cancelled, [])), run, moves);
    }
  }

  /* ---------------- destroying with something owed ---------------- */

  /** The rules allow to destroy the watcher. */
  predicate Destroyable(s: Sys, w: nat)
  {
    && w in s.io.watchers && !s.io.watchers[w].active
    && !s.io.watchers[w].phase.MustDrain? && !s.io.watchers[w].phase.Draining?
    && (s.io.watchers[w].phase.Drained? || s.io.watchers[w].data.None?)
  }

  lemma Destroyed(s: Sys, w: nat) returns (t: Sys)
    requires Destroyable(s, w) && Sized(s) && Owed(s, w)
    ensures Enabled(true, s, Io(S.Destroy(w))) && t == Apply(true, s, Io(S.Destroy(w)))
    ensures Sized(t) && w !in t.io.watchers && Owed(t, w)
  {
    t := Apply(true, s, Io(S.Destroy(w)));
    assert s.port.queue + [] == s.port.queue;
    assert t.port == s.port;
    ReleaseKeepsOwed(s.io, w);
  }

  lemma ReleaseKeepsOwed(io: W.World, w: nat)
    requires w in io.watchers
    ensures W.Release(io, w).lent == io.lent && W.Release(io, w).writing == io.writing && w !in W.Release(io, w).watchers
  {
  }

  lemma DestroyFaults(s: Sys, w: nat) returns (run: seq<Sys>, moves: seq<Move>)
    requires Destroyable(s, w) && Sized(s) && Owed(s, w)
    ensures Disciplined(run, moves) && run[0] == s && Faulty(run[|moves|])
  {
    hide Apply, Enabled, Sized, Owed;
    var t := Destroyed(s, w);
    run, moves := OwedFaults(t, w);
    run, moves := Preceded(s, Io(S.Destroy(w)), run, moves);
  }

  lemma TimedOut(s: Sys, w: nat) returns (t: Sys)
    requires w in s.io.watchers && (s.io.watchers[w].phase.MustDrain? || s.io.watchers[w].phase.Draining?)
    ensures Enabled(true, s, Io(S.SyncTimedOut(w))) && t == Apply(true, s, Io(S.SyncTimedOut(w)))
    ensures t.port == s.port && t.io == W.SetWatcher(s.io, w, s.io.watchers[w].(phase := W.GaveUp)) && t.timers == s.timers
  {
    t := Apply(true, s, Io(S.SyncTimedOut(w)));
    assert s.port.queue + [] == s.port.queue;
  }

  /** The block has been freed, and something is still owed. */
  lemma ReleasedFaults(s: Sys, w: nat) returns (run: seq<Sys>, moves: seq<Move>)
    requires w in s.io.watchers && !s.io.watchers[w].active && s.io.watchers[w].data.None? && Sized(s) && Owed(s, w)
    ensures Disciplined(run, moves) && run[0] == s && Faulty(run[|moves|])
  {
    hide Apply, Enabled;
    if s.io.watchers[w].phase.MustDrain? || s.io.watchers[w].phase.Draining? {
      var t := TimedOut(s, w);
      run, moves := DestroyFaults(t, w);
      run, moves := Preceded(s, Io(S.SyncTimedOut(w)), run, moves);
    } else {
      run, moves := DestroyFaults(s, w);
    }
  }

  /* ---------------- two completions owed ---------------- */

  /** The stopped watcher w still has its block b; the first of its packets is at position p, and something
      else is owed as well. */
  ghost predicate Twofold(s: Sys, w: nat, b: nat, p: nat)
  {
    && Inv(false, s) && w in s.io.watchers && s.io.watchers[w].hasCallback && !s.io.watchers[w].active
    && s.io.watchers[w].data == Some(b) && b in s.io.heap && s.io.heap[b].stopping
    && s.port.Done() <= p < |s.port.History()| && S.Keyed(s.port.History()[p], w)
    && (forall i :: s.port.Done() <= i < p ==> !S.Keyed(s.port.History()[i], w))
    && OwedBeyond(s, w, p)
  }

  ghost predicate OwedBeyond(s: Sys, w: nat, p: nat)
  {
    || w in s.io.writing || (exists c :: W.Lent(w, c) in s.io.lent)
    || exists q :: p < q < |s.port.History()| && S.Keyed(s.port.History()[q], w)
  }

  lemma TwofoldStep(s: Sys, w: nat, b: nat, p: nat) returns (m: Move, t: Sys)
    requires Twofold(s, w, b, p) && !AtPacketOf(s, w)
    ensures Enabled(true, s, m) && t == Apply(true, s, m) && Twofold(t, w, b, p) && Remaining(t, p) < Remaining(s, p)
  {
    hide Apply, Enabled, Inv, OwedBeyond;
    m, t := LoopTakes(s);
    LoopMoveSpares(s, w);
    MoveLowersRemaining(false, s, m, p);
    SameIsOwed(s, t, w, p);
  }

  lemma SameIsOwed(s: Sys, t: Sys, w: nat, p: nat)
    requires S.Same(s.io, t.io, w) && t.port.History() == s.port.History() && OwedBeyond(s, w, p)
    ensures OwedBeyond(t, w, p)
  {
    if c :| W.Lent(w, c) in s.io.lent {
      assert t.io.lent[W.Lent(w, c)] == s.io.lent[W.Lent(w, c)];
    }
  }

  /** The first packet frees the block. */
  lemma TwofoldEnds(s: Sys, w: nat, b: nat, p: nat) returns (m: Move, t: Sys)
    requires Twofold(s, w, b, p) && AtPacketOf(s, w)
    ensures Enabled(true, s, m) && t == Apply(true, s, m)
    ensures w in t.io.watchers && !t.io.watchers[w].active && t.io.watchers[w].data.None? && Sized(t) && Owed(t, w)
  {
    m := LoopMove(s);
    LoopMoveIsEnabled(false, false, s);
    LoopMoveIsEnabled(false, true, s);
    ModeIsNoMatter(s, m);
    TakesHead(s.port);
    t := Apply(true, s, m);
    DispatchIsNext(true, s, m.step.plan);
    assert t.io == W.Free(s.io, w, b);
    assert t.port.History() == s.port.History() && p == s.port.Done();
  }

  lemma {:induction false} TwofoldFaults(s: Sys, w: nat, b: nat, p: nat) returns (run: seq<Sys>, moves: seq<Move>)
    requires Twofold(s, w, b, p)
    ensures Disciplined(run, moves) && run[0] == s && Faulty(run[|moves|])
    decreases Remaining(s, p)
  {
    hide Apply, Enabled, Twofold, Sized, Owed;
    var m, t;
    if AtPacketOf(s, w) {
      m, t := TwofoldEnds(s, w, b, p);
      run, moves := ReleasedFaults(t, w);
    } else {
      m, t := TwofoldStep(s, w, b, p);
      run, moves := TwofoldFaults(t, w, b, p);
    }
    run, moves := Preceded(s, m, run, moves);
  }

  /* ---------------- a drain that does not wait for a write ---------------- */

  /** The drain of the stopped watcher w is under way, and the kernel holds a write of its caller. */
  ghost predicate Waiting(s: Sys, w: nat, ticket: nat)
  {
    && Inv(false, s) && w in s.io.watchers && !s.io.watchers[w].active && w in s.io.writing
    && s.io.watchers[w].phase.Draining? && s.io.watchers[w].phase.ticket == ticket && ticket < |s.port.History()|
  }

  lemma WaitingStep(s: Sys, w: nat, ticket: nat) returns (m: Move, t: Sys)
    requires Waiting(s, w, ticket) && s.port.Done() <= ticket
    ensures Enabled(true, s, m) && t == Apply(true, s, m) && Waiting(t, w, ticket) && Remaining(t, ticket) < Remaining(s, ticket)
  {
    hide Apply, Enabled, Inv;
    m, t := LoopTakes(s);
    MoveLowersRemaining(false, s, m, ticket);
    if AtPacketOf(s, w) {
      OwnDispatchWaits(s, w, ticket);
      MoveGrowsHistory(false, s, m);
    } else {
      LoopMoveSpares(s, w);
    }
  }

  lemma OwnDispatchWaits(s: Sys, w: nat, ticket: nat)
    requires Waiting(s, w, ticket) && AtPacketOf(s, w) && Enabled(false, s, LoopMove(s))
    ensures var t := Apply(false, s, LoopMove(s));
            && w in t.io.watchers && t.io.watchers[w].active == s.io.watchers[w].active
            && t.io.watchers[w].phase == s.io.watchers[w].phase && t.io.writing == s.io.writing
  {
    assert S.Good(false, s.port.History(), s.port.Done(), s.io, w);
    DispatchIsNext(false, s, LoopMove(s).step.plan);
    hide Apply, Enabled, Inv, S.Good;
  }

  lemma SyncIsSeen(s: Sys, w: nat, ticket: nat) returns (t: Sys)
    requires Waiting(s, w, ticket) && ticket < s.port.Done()
    ensures Enabled(true, s, Io(S.SyncSeen(w))) && t == Apply(true, s, Io(S.SyncSeen(w)))
    ensures Destroyable(t, w) && Sized(t) && Owed(t, w)
  {
    t := Apply(true, s, Io(S.SyncSeen(w)));
    assert s.port.queue + [] == s.port.queue;
    assert t.port == s.port;
  }

  lemma {:induction false} WaitingFaults(s: Sys, w: nat, ticket: nat) returns (run: seq<Sys>, moves: seq<Move>)
    requires Waiting(s, w, ticket)
    ensures Disciplined(run, moves) && run[0] == s && Faulty(run[|moves|])
    decreases Remaining(s, ticket)
  {
    hide Apply, Enabled, Waiting, Sized, Owed;
    var m, t;
    if ticket < s.port.Done() {
      t := SyncIsSeen(s, w, ticket);
      m := Io(S.SyncSeen(w));
      run, moves := DestroyFaults(t, w);
    } else {
      m, t := WaitingStep(s, w, ticket);
      run, moves := WaitingFaults(t, w, ticket);
    }
    run, moves := Preceded(s, m, run, moves);
  }

  /** The stopped watcher w owes a drain, the kernel holds a write of its caller, and at most one read. */
  ghost predicate Owing(s: Sys, w: nat)
  {
    && Inv(false, s) && w in s.io.watchers && !s.io.watchers[w].active && w in s.io.writing
    && s.io.watchers[w].phase.MustDrain?
    && forall b, c :: W.Lent(w, b) in s.io.lent && W.Lent(w, c) in s.io.lent ==> b == c && s.io.lent[W.Lent(w, b)] == 1
  }

  lemma OnlyReadArrives(s: Sys, w: nat, b: nat) returns (t: Sys)
    requires Owing(s, w) && W.Lent(w, b) in s.io.lent
    ensures Enabled(true, s, Io(S.CompleteRead(W.Lent(w, b), W.Cancelled, [])))
    ensures t == Apply(true, s, Io(S.CompleteRead(W.Lent(w, b), W.Cancelled, [])))
    ensures Owing(t, w) && forall c :: W.Lent(w, c) !in t.io.lent
  {
    hide Apply, Enabled, Inv;
    InvIsSized(s);
    t := ReadArrives(s, w, b);
    ReadArrivesLaxly(s, w, b);
    S.KernelReadShape(s.io, W.Lent(w, b), W.Cancelled, []);
    hide W.KernelRead;
  }

  lemma ReadArrivesLaxly(s: Sys, w: nat, b: nat)
    requires Inv(false, s) && W.Lent(w, b) in s.io.lent
    ensures Enabled(true, s, Io(S.CompleteRead(W.Lent(w, b), W.Cancelled, [])))
    ensures Inv(false, Apply(true, s, Io(S.CompleteRead(W.Lent(w, b), W.Cancelled, []))))
  {
    var m := Io(S.CompleteRead(W.Lent(w, b), W.Cancelled, []));
    assert Enabled(false, s, m);
    hide Apply, Inv;
    ModeIsNoMatter(s, m);
    MoveKeepsInv(false, s, m);
  }

  lemma InvIsSized(s: Sys)
    requires Inv(false, s)
    ensures Sized(s)
  {
  }

  lemma SyncIsPosted(s: Sys, w: nat) returns (t: Sys)
    requires Owing(s, w) && forall c :: W.Lent(w, c) !in s.io.lent
    ensures Enabled(true, s, Io(S.PostSync(w))) && t == Apply(true, s, Io(S.PostSync(w)))
    ensures Waiting(t, w, |s.port.History()|)
  {
    var m := Io(S.PostSync(w));
    t := Apply(true, s, m);
    ModeIsNoMatter(s, m);
    MoveKeepsInv(false, s, m);
  }

  lemma OwingFaults(s: Sys, w: nat) returns (run: seq<Sys>, moves: seq<Move>)
    requires Owing(s, w)
    ensures Disciplined(run, moves) && run[0] == s && Faulty(run[|moves|])
  {
    hide Apply, Enabled, Owing, Waiting;
    if b: nat :| W.Lent(w, b) in s.io.lent {
      var t := OnlyReadArrives(s, w, b);
      var u := SyncIsPosted(t, w);
      run, moves := WaitingFaults(u, w, |t.port.History()|);
      run, moves := Preceded(t, Io(S.PostSync(w)), run, moves);
      run, moves := Preceded(s, Io(S.CompleteRead(W.Lent(w, b), W.Cancelled, [])), run, moves);
    } else {
      var u := SyncIsPosted(s, w);
      run, moves := WaitingFaults(u, w, |s.port.History()|);
      run, moves := Preceded(s, Io(S.PostSync(w)), run, moves);
    }
  }

  /* ---------------- the stop ---------------- */

  /** What a stop leaves: the same port, reads and writes, and the block freed or stopping. */
  lemma Halted(s: Sys, w: nat, thread: nat) returns (t: Sys)
    requires Inv(true, s) && w in s.io.watchers && s.io.watchers[w].active && thread > 0
    ensures Enabled(false, s, Io(S.Halt(w, thread))) && t == Apply(false, s, Io(S.Halt(w, thread)))
    ensures Inv(false, t) && Sized(t) && t.port == s.port && t.io.lent == s.io.lent && t.io.writing == s.io.writing
    ensures S.Sound(s.io, w) && s.io.watchers[w].data.Some?
    ensures w in t.io.watchers && !t.io.watchers[w].active && t.io.watchers[w].hasCallback == s.io.watchers[w].hasCallback
    ensures var b := s.io.watchers[w].data.value;
            && (!s.io.heap[b].pending ==> t.io.watchers[w].data.None?)
            && (s.io.heap[b].pending ==>
                  && t.io.watchers[w].data == Some(b) && b in t.io.heap && t.io.heap[b].stopping
                  && (S.OffLoop(s.io, thread) ==> t.io.watchers[w].phase == W.MustDrain(thread)))
  {
    assert S.Good(true, s.port.History(), s.port.Done(), s.io, w);
    SysLaxlyToo(s);
    HaltIs(s, w, thread);
    MoveKeepsInv(false, s, Io(S.Halt(w, thread)));
    S.StopSelf(s.io, w, thread);
    StopPhase(s.io, w, thread);
    t := Apply(false, s, Io(S.Halt(w, thread)));
    InvIsSized(t);
    hide Inv, Apply, Enabled, W.Stop, S.Good;
  }

  lemma StopPhase(io: W.World, w: nat, thread: nat)
    requires w in io.watchers && S.Sound(io, w) && io.watchers[w].active
    ensures w in W.Stop(io, w, thread).watchers
    ensures io.heap[io.watchers[w].data.value].pending && S.OffLoop(io, thread) ==> W.Stop(io, w, thread).watchers[w].phase == W.MustDrain(thread)
  {
  }

  /** Two different packets or promises of packets of watcher w, seen from the first packet in the queue. */
  lemma FirstOf(s: Sys, w: nat, i: nat) returns (p: nat)
    requires s.port.Done() <= i < |s.port.History()| && S.Keyed(s.port.History()[i], w)
    ensures s.port.Done() <= p <= i && S.Keyed(s.port.History()[p], w)
    ensures forall k :: s.port.Done() <= k < p ==> !S.Keyed(s.port.History()[k], w)
  {
    p := s.port.Done();
    while !S.Keyed(s.port.History()[p], w)
      invariant s.port.Done() <= p <= i
      invariant forall k :: s.port.Done() <= k < p ==> !S.Keyed(s.port.History()[k], w)
      decreases i - p
    {
      p := p + 1;
    }
  }

  /** The stopped watcher still has its block, one packet of it is at position i, and another is at
      position j or is to come. */
  lemma TwoOwedFaults(t: Sys, w: nat, b: nat, i: nat, j: nat) returns (run: seq<Sys>, moves: seq<Move>)
    requires Inv(false, t) && w in t.io.watchers && t.io.watchers[w].hasCallback && !t.io.watchers[w].active
    requires t.io.watchers[w].data == Some(b) && b in t.io.heap && t.io.heap[b].stopping
    requires t.port.Done() <= i < |t.port.History()| && S.Keyed(t.port.History()[i], w)
    requires w in t.io.writing || (exists c :: W.Lent(w, c) in t.io.lent)
             || (t.port.Done() <= j < |t.port.History()| && S.Keyed(t.port.History()[j], w) && i != j)
    ensures Disciplined(run, moves) && run[0] == t && Faulty(run[|moves|])
  {
    hide Inv, Sized;
    var p := FirstOf(t, w, i);
    if w !in t.io.writing && forall c :: W.Lent(w, c) !in t.io.lent {
      assert p < i || p < j;
    }
    run, moves := TwofoldFaults(t, w, b, p);
  }

  /** Two writes are outstanding on the stopped watcher. */
  lemma TwoWritesFault(t: Sys, w: nat, b: nat) returns (run: seq<Sys>, moves: seq<Move>)
    requires Inv(false, t) && Sized(t) && w in t.io.watchers && t.io.watchers[w].hasCallback && !t.io.watchers[w].active
    requires t.io.watchers[w].data == Some(b) && b in t.io.heap && t.io.heap[b].stopping
    requires !S.OneWrite(t.port.History(), t.port.Done(), t.io, w)
    ensures Disciplined(run, moves) && run[0] == t && Faulty(run[|moves|])
  {
    hide Apply, Enabled, Inv, Sized;
    if t.io.writing[w] > 1 {
      var u := WriteQueued(t, w);
      run, moves := TwoOwedFaults(u, w, b, |t.port.History()|, 0);
      run, moves := Preceded(t, Io(S.KernelWrite(w, 0, 0)), run, moves);
    } else if w in t.io.writing {
      var i :| t.port.Done() <= i < |t.port.History()| && S.IsWrite(t.port.History()[i], w);
      run, moves := TwoOwedFaults(t, w, b, i, 0);
    } else {
      var i, j :| t.port.Done() <= i < j < |t.port.History()| && S.IsWrite(t.port.History()[i], w) && S.IsWrite(t.port.History()[j], w);
      run, moves := TwoOwedFaults(t, w, b, i, j);
    }
  }

  /** The read has completed and its packet is in the queue, and a write is outstanding. */
  lemma ReadAndWriteFault(s: Sys, t: Sys, w: nat, b: nat) returns (run: seq<Sys>, moves: seq<Move>)
    requires Inv(false, t) && Sized(t) && w in t.io.watchers && t.io.watchers[w].hasCallback && !t.io.watchers[w].active
    requires t.io.watchers[w].data == Some(b) && b in t.io.heap && t.io.heap[b].stopping
    requires exists i :: t.port.Done() <= i < |t.port.History()| && S.IsRead(t.port.History()[i], w)
    requires !S.NoWrites(t.port.History(), t.port.Done(), t.io, w)
    ensures Disciplined(run, moves) && run[0] == t && Faulty(run[|moves|])
  {
    hide Inv, Sized;
    var i :| t.port.Done() <= i < |t.port.History()| && S.IsRead(t.port.History()[i], w);
    if w in t.io.writing {
      run, moves := TwoOwedFaults(t, w, b, i, 0);
    } else {
      var j :| t.port.Done() <= j < |t.port.History()| && S.IsWrite(t.port.History()[j], w);
      run, moves := TwoOwedFaults(t, w, b, i, j);
    }
  }

  /** What is known of the reads of an active watcher whose pending flag is set. */
  lemma PendingReads(s: Sys, w: nat)
    requires Inv(true, s) && w in s.io.watchers && s.io.watchers[w].active && s.io.watchers[w].data.Some?
    ensures s.io.watchers[w].data.value in s.io.heap
    ensures forall b, c :: W.Lent(w, b) in s.io.lent && W.Lent(w, c) in s.io.lent ==> b == c && s.io.lent[W.Lent(w, b)] == 1
    ensures var d := s.io.heap[s.io.watchers[w].data.value];
            d.pending && s.io.watchers[w].hasCallback && !d.armFailed ==>
              || (exists b :: W.Lent(w, b) in s.io.lent)
              || exists i :: s.port.Done() <= i < |s.port.History()| && S.IsRead(s.port.History()[i], w)
  {
    var log, done := s.port.History(), s.port.Done();
    assert S.Good(true, log, done, s.io, w);
    forall b, c | W.Lent(w, b) in s.io.lent && W.Lent(w, c) in s.io.lent ensures b == c && s.io.lent[W.Lent(w, b)] == 1 {
      assert S.OwnsRead(s.io, w, b) && S.OwnsRead(s.io, w, c);
    }
  }

  /** A stop against the rule has a continuation in which every later move is by the rules, and which
      touches freed memory. */
  lemma StopAgainstTheRuleFaults(s: Sys, w: nat, thread: nat) returns (run: seq<Sys>, moves: seq<Move>)
    requires Inv(true, s) && w in s.io.watchers && s.io.watchers[w].active && thread > 0
    requires !S.MayStop(s.port.History(), s.port.Done(), s.io, w, thread)
    ensures Continues(s, Io(S.Halt(w, thread)), run, moves) && Faulty(run[|moves|])
  {
    hide Apply, Enabled, Inv, Sized, Owing;
    var t := Halted(s, w, thread);
    PendingReads(s, w);
    var b := s.io.watchers[w].data.value;
    var x, d := s.io.watchers[w], s.io.heap[b];
    if !d.pending {
      WritesAreOwed(t, w);
      run, moves := ReleasedFaults(t, w);
    } else if x.hasCallback && !d.armFailed {
      if c: nat :| W.Lent(w, c) in s.io.lent {
        run, moves := StopWithWriteFaults(s, w, c, thread);
        return;
      }
      run, moves := ReadAndWriteFault(s, t, w, b);
    } else if x.hasCallback && !S.OneWrite(s.port.History(), s.port.Done(), s.io, w) {
      run, moves := TwoWritesFault(t, w, b);
    } else {
      assert Owing(t, w) by {
        IsOwing(t, w);
      }
      run, moves := OwingFaults(t, w);
    }
    run, moves := Started(s, Io(S.Halt(w, thread)), run, moves);
  }

  lemma WritesAreOwed(s: Sys, w: nat)
    requires !S.NoWrites(s.port.History(), s.port.Done(), s.io, w)
    ensures Owed(s, w)
  {
  }

  lemma IsOwing(s: Sys, w: nat)
    requires Inv(false, s) && w in s.io.watchers && !s.io.watchers[w].active && w in s.io.writing && s.io.watchers[w].phase.MustDrain?
    requires forall b, c :: W.Lent(w, b) in s.io.lent && W.Lent(w, c) in s.io.lent ==> b == c && s.io.lent[W.Lent(w, b)] == 1
    ensures Owing(s, w)
  {
  }

  /** The rule for stopping is exact.  Stopping any active watcher can lead to an access to freed memory,
      with every later move by the rules, if and only if the stop is not by the rule. */
  lemma StopIsSafeIff(s: Sys, w: nat, thread: nat)
    requires Inv(true, s) && w in s.io.watchers && s.io.watchers[w].active && thread > 0
    ensures (exists run: seq<Sys>, moves: seq<Move> :: Continues(s, Io(S.Halt(w, thread)), run, moves) && Faulty(run[|moves|]))
            <==> !S.MayStop(s.port.History(), s.port.Done(), s.io, w, thread)
  {
    hide Apply, Enabled, Inv, S.MayStop;
    if S.MayStop(s.port.History(), s.port.Done(), s.io, w, thread) {
      forall run: seq<Sys>, moves: seq<Move> | Continues(s, Io(S.Halt(w, thread)), run, moves) ensures !Faulty(run[|moves|]) {
        StopByTheRuleIsSafe(s, w, thread, run, moves);
      }
    } else {
      var run, moves := StopAgainstTheRuleFaults(s, w, thread);
    }
  }

  /** For a watcher with a callback whose updates never failed to re-issue a read, the rule is that no write
      of its caller is outstanding. */
  lemma RuleIsNoWrites(s: Sys, w: nat, thread: nat)
    requires Inv(true, s) && w in s.io.watchers && s.io.watchers[w].active && s.io.watchers[w].hasCallback
    requires s.io.watchers[w].data.Some? ==> s.io.watchers[w].data.value in s.io.heap && !s.io.heap[s.io.watchers[w].data.value].armFailed
    ensures S.MayStop(s.port.History(), s.port.Done(), s.io, w, thread) <==> S.NoWrites(s.port.History(), s.port.Done(), s.io, w)
  {
  }
}
