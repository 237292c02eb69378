/** Reads over whole runs: what a callback is told about a read, and which bytes it gets, are what the kernel
    reported when it completed that read. */
module IocpReads {
  import P = IocpPort
  import W = IocpWatcher
  import S = IocpSafety
  import T = IocpTimer
  import opened Iocp
  import opened IocpResults
  import opened IocpWrites
  import opened Options

  /** What the kernel reports for a read. */
  datatype Outcome = Outcome(status: W.Status, data: seq<W.byte>)

  /** The kernel's report behind the completion packet at position d of the posting order. */
  function Report(run: seq<Sys>, moves: seq<Move>, n: nat, d: nat): Option<Outcome>
    requires n <= |moves| < |run|
  {
    if n == 0 then None
    else if moves[n - 1].Io? && moves[n - 1].step.CompleteRead? && |run[n - 1].port.History()| == d then
      Some(Outcome(moves[n - 1].step.status, moves[n - 1].step.data))
    else Report(run, moves, n - 1, d)
  }

  /** Bytes are a READ, the end of the stream is a HANGUP, a failure is an ERROR; of a cancelled read the
      callback is not told. */
  function EventFor(c: Outcome): Option<W.Event>
  {
    if c.status.Cancelled? then None
    else if c.status.Failed? then Some(W.Error)
    else if c.data == [] then Some(W.Hangup)
    else Some(W.Read)
  }

  /** The block holds the report of its read. */
  predicate Holds(io: W.World, b: nat, c: Outcome)
  {
    && b in io.heap && io.heap[b].internal == c.status
    && |c.data| <= W.BUFFER_SIZE && io.heap[b].buffer[..|c.data|] == c.data
  }

  /* ---------------- steps that are not about the watcher ---------------- */

  predicate Concerns(log: seq<P.Packet>, done: nat, step: S.Step, w: nat)
  {
    match step
    case CompleteRead(l, _, _) => l.watcher == w
    case DispatchIo(_) => done < |log| && S.Keyed(log[done], w)
    case Create(v, _, _, _) => v == w
    case Change(v, _, _) => v == w
    case Halt(v, _) => v == w
    case PostSync(v) => v == w
    case SyncSeen(v) => v == w
    case SyncTimedOut(v) => v == w
    case Destroy(v) => v == w
    case BeginWrite(v) => v == w
    case KernelWrite(v, _, _) => v == w
  }

  /** A step of another watcher leaves watcher w, its block and its reads and writes alone. */
  lemma OthersSeeNothing(log: seq<P.Packet>, done: nat, io: W.World, step: S.Step, w: nat)
    requires S.Inv(true, log, done, io) && S.Enabled(true, log, done, io, step) && w in io.watchers && !Concerns(log, done, step, w)
    ensures S.Same(io, S.Next(true, log, done, io, step).0, w)
  {
    hide W.Register, W.Dispatch, W.KernelRead, W.Release, W.Update, W.Stop, S.MayStop, S.Good, S.Same;
    match step
    case Create(v, b, hasCallback, read) => S.CreateIsApart(true, log, done, io, v, b, hasCallback, read);
    case Destroy(v) => S.ReleaseIsApart(true, log, done, io, v, w);
    case CompleteRead(l, status, data) => CompletedElsewhere(log, done, io, l, status, data, w);
    case Change(_, _, _) => OperatedElsewhere(log, done, io, step, w);
    case Halt(_, _) => OperatedElsewhere(log, done, io, step, w);
    case DispatchIo(plan) => DispatchedElsewhere(log, done, io, plan, w);
    case _ => PhaseElsewhere(log, done, io, step, w);
  }

  lemma PhaseElsewhere(log: seq<P.Packet>, done: nat, io: W.World, step: S.Step, w: nat)
    requires S.Enabled(true, log, done, io, step) && w in io.watchers && !Concerns(log, done, step, w)
    requires step.PostSync? || step.SyncSeen? || step.SyncTimedOut? || step.BeginWrite? || step.KernelWrite?
    ensures S.Same(io, S.Next(true, log, done, io, step).0, w)
  {
    hide S.NoWrites;
  }

  lemma CompletedElsewhere(log: seq<P.Packet>, done: nat, io: W.World, l: W.Lent, status: W.Status, data: seq<W.byte>, w: nat)
    requires S.Inv(true, log, done, io) && l in io.lent && |data| <= W.BUFFER_SIZE && w in io.watchers && l.watcher != w
    ensures S.Same(io, W.KernelRead(io, l, status, data), w)
  {
    S.KernelReadShape(io, l, status, data);
    hide W.KernelRead, W.Deposit;
    assert S.Good(true, log, done, io, l.watcher);
    assert S.Good(true, log, done, io, w);
    assert S.OwnsRead(io, l.watcher, l.block);
  }

  lemma OperatedElsewhere(log: seq<P.Packet>, done: nat, io: W.World, step: S.Step, w: nat)
    requires S.Inv(true, log, done, io) && S.Enabled(true, log, done, io, step) && w in io.watchers && !Concerns(log, done, step, w)
    requires step.Change? || step.Halt?
    ensures S.Same(io, S.Next(true, log, done, io, step).0, w)
  {
    assert S.Good(true, log, done, io, step.w);
    S.InvIsApart(true, log, done, io, step.w);
    hide S.Inv, S.Good, W.Update, W.Stop, S.Same;
    if step.Change? {
      S.UpdateIsLocal(io, step.w, step.read, step.issued);
    } else {
      S.StopIsLocal(io, step.w, step.thread);
    }
  }

  lemma DispatchedElsewhere(log: seq<P.Packet>, done: nat, io: W.World, plan: W.Plan, w: nat)
    requires S.Inv(true, log, done, io) && S.Enabled(true, log, done, io, S.DispatchIo(plan)) && w in io.watchers && log[done].watcher != w
    ensures var p := log[done]; S.Same(io, W.Dispatch(io, p.watcher, p.overlapped, p.bytes, plan), w)
  {
    var p := log[done];
    assert S.Good(true, log, done, io, p.watcher);
    S.InvIsApart(true, log, done, io, p.watcher);
    hide S.Inv, S.Good, W.Dispatch, S.Same;
    S.DispatchIsLocal(io, p.watcher, p.overlapped, p.bytes, plan);
  }

  /* ---------------- a report stays until it is dispatched ---------------- */

  predicate OwnsAfter(t: W.World, w: nat, b: nat) { w in t.watchers && S.OwnsRead(t, w, b) }

  /** While a completed read waits to be dispatched, nothing touches its OVERLAPPED or its bytes. */
  lemma StepLeavesReport(log: seq<P.Packet>, done: nat, io: W.World, step: S.Step, w: nat, b: nat, c: Outcome)
    requires S.Inv(true, log, done, io) && S.Enabled(true, log, done, io, step)
    requires w in io.watchers && S.OwnsRead(io, w, b) && W.Lent(w, b) !in io.lent && Holds(io, b, c)
    requires step.DispatchIo? ==> !S.IsRead(log[done], w)
    requires OwnsAfter(S.Next(true, log, done, io, step).0, w, b)
    ensures Holds(S.Next(true, log, done, io, step).0, b, c)
  {
    if !Concerns(log, done, step, w) {
      OthersSeeNothing(log, done, io, step, w);
      hide S.Inv, S.Enabled, S.Next;
    } else {
      assert S.Sound(io, w) && S.Lending(log, done, io, w) by {
        assert S.Good(true, log, done, io, w);
      }
      hide S.Inv, S.Lending, W.Dispatch, W.Stop, W.Update, W.Release, W.KernelRead, Holds;
      match step
      case Change(_, read, issued) => PendingIsLeftAlone(io, w, read, issued);
      case Halt(_, thread) => StopLeavesReport(io, w, b, thread, c);
      case CompleteRead(l, _, _) => NotLentAgain(log, done, io, w, b, l);
      case DispatchIo(plan) => WriteLeavesReport(io, w, b, plan, log[done].overlapped, log[done].bytes, c);
      case Destroy(_) =>
      case Create(_, _, _, _) =>
      case _ => PhaseLeavesHeap(log, done, io, step);
        SameHeapHolds(io, S.Next(true, log, done, io, step).0, b, c);
    }
  }

  lemma SameHeapHolds(io: W.World, t: W.World, b: nat, c: Outcome)
    requires io.heap == t.heap && Holds(io, b, c)
    ensures Holds(t, b, c)
  {
  }

  lemma PhaseLeavesHeap(log: seq<P.Packet>, done: nat, io: W.World, step: S.Step)
    requires S.Enabled(true, log, done, io, step)
    requires step.PostSync? || step.SyncSeen? || step.SyncTimedOut? || step.BeginWrite? || step.KernelWrite?
    ensures S.Next(true, log, done, io, step).0.heap == io.heap
  {
    hide S.NoWrites;
  }

  lemma PendingIsLeftAlone(io: W.World, w: nat, read: bool, issued: bool)
    requires w in io.watchers && io.watchers[w].data.Some? && io.watchers[w].data.value in io.heap && io.heap[io.watchers[w].data.value].pending
    ensures W.Update(io, w, read, issued) == io
  {
  }

  lemma StopLeavesReport(io: W.World, w: nat, b: nat, thread: nat, c: Outcome)
    requires w in io.watchers && S.Sound(io, w) && S.OwnsRead(io, w, b) && Holds(io, b, c)
    ensures Holds(W.Stop(io, w, thread), b, c)
  {
    S.StopSelf(io, w, thread);
    hide W.Stop;
  }

  lemma NotLentAgain(log: seq<P.Packet>, done: nat, io: W.World, w: nat, b: nat, l: W.Lent)
    requires w in io.watchers && S.Lending(log, done, io, w) && S.OwnsRead(io, w, b) && W.Lent(w, b) !in io.lent && l in io.lent
    ensures l.watcher != w
  {
  }

  lemma WriteLeavesReport(io: W.World, w: nat, b: nat, plan: W.Plan, ov: P.Overlapped, bytes: nat, c: Outcome)
    requires w in io.watchers && S.Sound(io, w) && S.OwnsRead(io, w, b) && Holds(io, b, c) && ov.Callers? && !plan.after.DestroySelf?
    requires var t := W.Dispatch(io, w, ov, bytes, plan); w in t.watchers && S.OwnsRead(t, w, b)
    ensures Holds(W.Dispatch(io, w, ov, bytes, plan), b, c)
  {
    S.StopSelf(W.Called(io, w, W.Write), w, io.loopThread);
    hide W.Stop;
  }

  lemma OwnedAt(s: Sys, d: nat, w: nat)
    requires Inv(true, s) && s.port.Done() <= d < |s.port.History()| && S.IsRead(s.port.History()[d], w)
    ensures w in s.io.watchers && S.OwnsRead(s.io, w, s.port.History()[d].overlapped.block)
    ensures W.Lent(w, s.port.History()[d].overlapped.block) !in s.io.lent
    ensures s.port.Done() < d ==> !S.IsRead(s.port.History()[s.port.Done()], w)
  {
    assert S.Good(true, s.port.History(), s.port.Done(), s.io, w);
  }

  lemma MoveLeavesReport(s: Sys, m: Move, d: nat, w: nat, c: Outcome)
    requires Inv(true, s) && Enabled(true, s, m) && d < |s.port.History()| && S.IsRead(s.port.History()[d], w)
    requires Holds(s.io, s.port.History()[d].overlapped.block, c)
    requires Apply(true, s, m).port.Done() <= d
    ensures Holds(Apply(true, s, m).io, s.port.History()[d].overlapped.block, c)
  {
    hide Inv, S.Enabled, S.Next, T.Enabled, T.Next, Holds, S.OwnsRead;
    var s', b := Apply(true, s, m), s.port.History()[d].overlapped.block;
    MoveKeepsInv(true, s, m);
    MoveGrowsHistory(true, s, m);
    OwnedAt(s, d, w);
    OwnedAt(s', d, w);
    if m.Io? {
      if m.step.DispatchIo? {
        TakesHead(s.port);
      }
      assert S.Inv(true, s.port.History(), s.port.Done(), s.io) by {
        IoInv(s);
      }
      StepLeavesReport(s.port.History(), s.port.Done(), s.io, m.step, w, b, c);
    } else {
      SameHeapHolds(s.io, s'.io, b, c);
    }
  }

  lemma IoInv(s: Sys)
    requires Inv(true, s)
    ensures S.Inv(true, s.port.History(), s.port.Done(), s.io)
  {
    hide S.Inv, T.Inv;
  }

  /** A read completion is posted by the kernel's completing that read, and by nothing else. */
  lemma NewReadIsReported(s: Sys, m: Move, w: nat)
    requires Inv(true, s) && Enabled(true, s, m) && |s.port.History()| < |Apply(true, s, m).port.History()|
    requires S.IsRead(Apply(true, s, m).port.History()[|s.port.History()|], w)
    ensures m.Io? && m.step.CompleteRead?
    ensures Apply(true, s, m).port.History() == s.port.History() + [P.IoDone(m.step.l.watcher, P.Embedded(m.step.l.block), |m.step.data|)]
    ensures Holds(Apply(true, s, m).io, m.step.l.block, Outcome(m.step.status, m.step.data))
  {
    var log, done := s.port.History(), s.port.Done();
    hide S.Inv, T.Inv, S.Enabled, T.Enabled, T.Next, Holds;
    match m
    case Io(step) =>
      if step.CompleteRead? {
        CompletionIsEnabled(s, m);
        LentIsSafe(s, step.l);
        ReportIsDeposited(s.io, step.l, step.status, step.data);
      } else if step.DispatchIo? {
        TakesHead(s.port);
      } else {
        OnlyCompletionsArePosted(log, done, s.io, step);
      }
    case Timer(step) =>
      if step.TakeTimer? {
        TakesHead(s.port);
      } else {
        TimerPosts(s.port, s.timers, step);
      }
    case Fetch(n) => P.MoveKeepsOrder(s.port, P.Fetch(n));
    case SkipPacket => TakesHead(s.port);
    case PostWake => P.MoveKeepsOrder(s.port, P.Post(P.Wake));
    case EnterLoop(_) =>
  }

  lemma CompletionIsEnabled(s: Sys, m: Move)
    requires Enabled(true, s, m) && m.Io? && m.step.CompleteRead?
    ensures m.step.l in s.io.lent && |m.step.data| <= W.BUFFER_SIZE
  {
  }

  lemma OnlyCompletionsArePosted(log: seq<P.Packet>, done: nat, io: W.World, step: S.Step)
    requires S.Enabled(true, log, done, io, step) && !step.DispatchIo? && !step.CompleteRead?
    ensures forall x <- S.Next(true, log, done, io, step).1, w: nat :: !S.IsRead(x, w)
    ensures |S.Next(true, log, done, io, step).1| <= 1
  {
    hide S.NoWrites;
  }

  lemma ReportIsDeposited(io: W.World, l: W.Lent, status: W.Status, data: seq<W.byte>)
    requires l.block in io.heap && |data| <= W.BUFFER_SIZE
    ensures Holds(W.KernelRead(io, l, status, data), l.block, Outcome(status, data))
  {
    S.KernelReadShape(io, l, status, data);
    hide W.KernelRead;
  }

  /** In every run by the rules, a read completion in the batch or the queue has a report, and its block
      still holds it. */
  lemma {:induction false} ReportIsHeld(run: seq<Sys>, moves: seq<Move>, n: nat, d: nat, w: nat)
    requires IsRun(true, run, moves) && n < |run| && run[n].port.Done() <= d < |run[n].port.History()|
    requires S.IsRead(run[n].port.History()[d], w)
    ensures var p, c := run[n].port.History()[d], Report(run, moves, n, d);
            c.Some? && |c.value.data| == p.bytes && Holds(run[n].io, p.overlapped.block, c.value)
  {
    hide Apply, Enabled, Inv, Holds;
    if n > 0 {
      var s, m := run[n - 1], moves[n - 1];
      RunIsSafe(true, run, moves, n - 1);
      MoveGrowsHistory(true, s, m);
      if d < |s.port.History()| {
        ReportIsHeld(run, moves, n - 1, d, w);
        MoveLeavesReport(s, m, d, w, Report(run, moves, n - 1, d).value);
      } else {
        PostsOneAtMost(s, m);
        NewReadIsReported(s, m, w);
      }
    }
  }

  lemma PostsOneAtMost(s: Sys, m: Move)
    requires Enabled(true, s, m)
    ensures |Apply(true, s, m).port.History()| <= |s.port.History()| + 1
  {
    hide S.Enabled, T.Enabled;
    match m
    case Io(step) =>
      if step.DispatchIo? {
        TakesHead(s.port);
      } else {
        IoPosts(true, s.port, s.io, step);
      }
      hide S.Next;
    case Timer(step) =>
      if step.TakeTimer? {
        TakesHead(s.port);
      } else {
        TimerPosts(s.port, s.timers, step);
      }
      hide T.Next;
    case Fetch(n) => P.MoveKeepsOrder(s.port, P.Fetch(n));
    case SkipPacket => TakesHead(s.port);
    case PostWake =>
    case EnterLoop(_) =>
  }

  /* ---------------- what a dispatched read tells and hands over ---------------- */

  /** The watcher is registered, not stopping, and has a callback. */
  predicate Listening(io: W.World, w: nat) { w in io.watchers && io.watchers[w].active && io.watchers[w].hasCallback }

  /** What drain calls with these lengths take of the bytes of a read. */
  function Taken(data: seq<W.byte>, lens: seq<nat>): seq<W.byte> { data[..W.Min(W.Sum(lens), |data|)] }

  lemma OperationsKeepDrained(io: W.World, w: nat, after: W.After)
    requires w in io.watchers && !after.DestroySelf?
    ensures var t := W.RunAfter(io, w, after); w in t.watchers && t.watchers[w].drained == io.watchers[w].drained
  {
  }

  lemma ConsumeHandsOver(io: W.World, w: nat, b: nat, c: Outcome, lens: seq<nat>)
    requires w in io.watchers && Holds(io, b, c) && io.heap[b].pending && !c.status.Cancelled?
    ensures var t := W.Consume(io, w, b, |c.data|, lens);
            && w in t.watchers && EventFor(c).Some? && t.calls == io.calls + [W.Call(w, EventFor(c).value)]
            && W.EventOf(io.heap[b], |c.data|) == EventFor(c).value
            && t.watchers[w].drained == io.watchers[w].drained + if EventFor(c) == Some(W.Read) then Taken(c.data, lens) else []
  {
    hide W.DrainMany;
    W.DrainReturnsPrefix(io.heap[b].(available := |c.data|, pending := false), lens);
  }

  lemma DispatchTells(log: seq<P.Packet>, done: nat, io: W.World, plan: W.Plan, w: nat, c: Outcome)
    requires S.Inv(true, log, done, io) && S.Enabled(true, log, done, io, S.DispatchIo(plan)) && S.IsRead(log[done], w)
    requires Holds(io, log[done].overlapped.block, c) && |c.data| == log[done].bytes
    ensures var p := log[done];
            var t := W.Dispatch(io, w, p.overlapped, p.bytes, plan);
            && w in io.watchers && w in t.watchers
            && t.calls == io.calls + (if Listening(io, w) && EventFor(c).Some? then [W.Call(w, EventFor(c).value)] else [])
            && t.watchers[w].drained
               == io.watchers[w].drained + if Listening(io, w) && EventFor(c) == Some(W.Read) then Taken(c.data, plan.lens) else []
  {
    hide S.Inv, W.Dispatch, Holds, Listening, S.OwnsRead, S.Sound, Taken;
    NextReadIsOwned(log, done, io, w);
    OwnedReadTells(io, w, log[done], plan, c);
  }

  lemma NextReadIsOwned(log: seq<P.Packet>, done: nat, io: W.World, w: nat)
    requires S.Inv(true, log, done, io) && done < |log| && S.IsRead(log[done], w)
    ensures w in io.watchers && S.OwnsRead(io, w, log[done].overlapped.block) && S.Sound(io, w)
  {
    assert S.Good(true, log, done, io, w);
  }

  lemma OwnedReadTells(io: W.World, w: nat, p: P.Packet, plan: W.Plan, c: Outcome)
    requires w in io.watchers && S.IsRead(p, w) && S.OwnsRead(io, w, p.overlapped.block) && S.Sound(io, w) && !plan.after.DestroySelf?
    requires Holds(io, p.overlapped.block, c) && |c.data| == p.bytes
    ensures var t := W.Dispatch(io, w, p.overlapped, p.bytes, plan);
            && w in t.watchers
            && t.calls == io.calls + (if Listening(io, w) && EventFor(c).Some? then [W.Call(w, EventFor(c).value)] else [])
            && t.watchers[w].drained
               == io.watchers[w].drained + if Listening(io, w) && EventFor(c) == Some(W.Read) then Taken(c.data, plan.lens) else []
  {
    var x, b := io.watchers[w], p.overlapped.block;
    hide W.Consume, W.RunAfter, W.Rearm, W.DrainMany, W.Free, W.EventOf, Taken;
    if x.hasCallback && io.heap[b].stopping {
      FreeTellsNobody(io, w, b);
    } else if x.hasCallback && !c.status.Cancelled? {
      var s1 := W.Consume(io, w, b, p.bytes, plan.lens);
      ConsumeHandsOver(io, w, b, c, plan.lens);
      OperationsCallNobody(s1, w, plan.after);
      OperationsKeepDrained(s1, w, plan.after);
      RearmCallsNobody(W.RunAfter(s1, w, plan.after), w, W.EventOf(io.heap[b], p.bytes), plan.reissued);
      RearmAddsNoWatcher(W.RunAfter(s1, w, plan.after), w, W.EventOf(io.heap[b], p.bytes), plan.reissued);
    }
  }

  lemma RearmAddsNoWatcher(io: W.World, w: nat, e: W.Event, issued: bool)
    ensures W.Rearm(io, w, e, issued).watchers == io.watchers
  {
  }

  lemma FreeTellsNobody(io: W.World, w: nat, b: nat)
    requires w in io.watchers
    ensures var t := W.Free(io, w, b); w in t.watchers && t.calls == io.calls && t.watchers[w].drained == io.watchers[w].drained
  {
  }

  /** The move dispatches a read completion of watcher w. */
  predicate TakesRead(s: Sys, m: Move, w: nat)
  {
    m.Io? && m.step.DispatchIo? && s.port.batch != [] && S.IsRead(s.port.batch[0], w)
  }

  /** A dispatched read tells its callback what the kernel reported, and hands over the bytes that the kernel
      delivered.  Every dispatch of a read completion has a report, of as many bytes as the packet says.
      On a registered watcher with a callback that is not stopping: bytes call back READ, and its drain
      calls take the first of them, as many as they ask for; the end of the stream calls back HANGUP, a
      failure ERROR, and a cancelled read nothing.  On any other watcher it calls back nothing. */
  lemma ReadTellsItsReport(run: seq<Sys>, moves: seq<Move>, n: nat, w: nat)
    requires IsRun(true, run, moves) && n < |moves| && TakesRead(run[n], moves[n], w)
    ensures var s, t, c, plan := run[n].io, run[n + 1].io, Report(run, moves, n, run[n].port.Done()), moves[n].step.plan;
            && c.Some? && |c.value.data| == run[n].port.batch[0].bytes && w in s.watchers && w in t.watchers
            && (Listening(s, w) ==>
                  && t.calls == s.calls + (match c.value.status
                                           case Cancelled => []
                                           case Failed => [W.Call(w, W.Error)]
                                           case Success => [W.Call(w, if c.value.data == [] then W.Hangup else W.Read)])
                  && t.watchers[w].drained
                     == s.watchers[w].drained + if c.value.status.Success? then Taken(c.value.data, plan.lens) else [])
            && (!Listening(s, w) ==> t.calls == s.calls && t.watchers[w].drained == s.watchers[w].drained)
  {
    var s, plan := run[n], moves[n].step.plan;
    var d := s.port.Done();
    RunIsSafe(true, run, moves, n);
    TakesHead(s.port);
    ReportIsHeld(run, moves, n, d, w);
    DispatchTells(s.port.History(), d, s.io, plan, w, Report(run, moves, n, d).value);
    DispatchIsNext(true, s, plan);
    hide Apply, Enabled, Inv, W.Dispatch;
  }

  /* ---------------- over whole runs ---------------- */

  /** Move n dispatches a read of w that calls back e. */
  predicate HearsRead(run: seq<Sys>, moves: seq<Move>, n: nat, w: nat, e: W.Event)
    requires n < |moves| < |run|
  {
    && TakesRead(run[n], moves[n], w) && Listening(run[n].io, w)
    && var c := Report(run, moves, n, run[n].port.Done());
       c.Some? && EventFor(c.value) == Some(e)
  }

  function ReadsHeard(run: seq<Sys>, moves: seq<Move>, n: nat, w: nat, e: W.Event): nat
    requires n <= |moves| < |run|
  {
    if n == 0 then 0 else ReadsHeard(run, moves, n - 1, w, e) + if HearsRead(run, moves, n - 1, w, e) then 1 else 0
  }

  /** The bytes that the drain calls of w's callbacks took in the first n moves. */
  function Received(run: seq<Sys>, moves: seq<Move>, n: nat, w: nat): seq<W.byte>
    requires n <= |moves| < |run|
  {
    if n == 0 then []
    else
      Received(run, moves, n - 1, w)
      + if HearsRead(run, moves, n - 1, w, W.Read)
        then Taken(Report(run, moves, n - 1, run[n - 1].port.Done()).value.data, moves[n - 1].step.plan.lens) else []
  }

  function CallsOf(io: W.World, w: nat, e: W.Event): nat { multiset(io.calls)[W.Call(w, e)] }

  lemma DispatchOfWriteCalls(log: seq<P.Packet>, done: nat, io: W.World, plan: W.Plan, w: nat, e: W.Event)
    requires S.Inv(true, log, done, io) && S.Enabled(true, log, done, io, S.DispatchIo(plan)) && S.IsWrite(log[done], log[done].watcher)
    requires !e.Write?
    ensures var p := log[done]; CallsOf(W.Dispatch(io, p.watcher, p.overlapped, p.bytes, plan), w, e) == CallsOf(io, w, e)
  {
    var v := log[done].watcher;
    assert S.Good(true, log, done, io, v);
    OperationsCallNobody(W.Called(io, v, W.Write), v, plan.after);
    hide S.Inv, S.Good, W.RunAfter, W.Consume, W.Rearm;
  }

  lemma MoveCallsEvent(run: seq<Sys>, moves: seq<Move>, n: nat, w: nat, e: W.Event)
    requires IsRun(true, run, moves) && n < |moves| && !e.Write?
    ensures CallsOf(run[n + 1].io, w, e) == CallsOf(run[n].io, w, e) + if HearsRead(run, moves, n, w, e) then 1 else 0
  {
    hide Apply, Enabled, Inv, Report;
    var s, m := run[n], moves[n];
    RunIsSafe(true, run, moves, n);
    if m.Io? && m.step.DispatchIo? {
      DispatchHasHead(s, m);
      var v := s.port.batch[0].watcher;
      if S.IsRead(s.port.batch[0], v) {
        ReadTellsItsReport(run, moves, n, v);
      } else {
        WriteMoveCallsNone(s, m.step.plan, w, e);
      }
    } else {
      OtherMovesCallNobody(s, m);
    }
  }

  lemma DispatchHasHead(s: Sys, m: Move)
    requires Enabled(true, s, m) && m.Io? && m.step.DispatchIo?
    ensures s.port.batch != [] && s.port.batch[0].IoDone?
  {
    DispatchIsNext(true, s, m.step.plan);
    hide S.Enabled;
  }

  lemma WriteMoveCallsNone(s: Sys, plan: W.Plan, w: nat, e: W.Event)
    requires Inv(true, s) && Enabled(true, s, Io(S.DispatchIo(plan))) && !e.Write?
    requires s.port.batch != [] && S.IsWrite(s.port.batch[0], s.port.batch[0].watcher)
    ensures CallsOf(Apply(true, s, Io(S.DispatchIo(plan))).io, w, e) == CallsOf(s.io, w, e)
  {
    hide S.Inv, T.Inv, S.Enabled, S.Next, W.Dispatch;
    TakesHead(s.port);
    IoInv(s);
    DispatchOfWriteCalls(s.port.History(), s.port.Done(), s.io, plan, w, e);
    DispatchIsNext(true, s, plan);
  }

  lemma OtherMovesCallNobody(s: Sys, m: Move)
    requires Enabled(true, s, m) && !(m.Io? && m.step.DispatchIo?)
    ensures Apply(true, s, m).io.calls == s.io.calls
  {
    hide S.Enabled, S.Next, T.Enabled, T.Next;
    if m.Io? {
      StepCallsNobody(true, s.port.History(), s.port.Done(), s.io, m.step);
    }
  }

  /** Over any run by the rules, the READ callbacks of a watcher are as many as its reads that the kernel
      completed with bytes and the loop dispatched while it was registered, the HANGUPs as many as those
      completed without, the ERRORs as many as those that failed; and none is called back with no event. */
  lemma {:induction false} ReadsAreHeardOnce(run: seq<Sys>, moves: seq<Move>, n: nat, w: nat, e: W.Event)
    requires IsRun(true, run, moves) && n < |run| && !e.Write?
    ensures CallsOf(run[n].io, w, e) == ReadsHeard(run, moves, n, w, e)
    ensures e.NoEvent? ==> CallsOf(run[n].io, w, e) == 0
  {
    hide Apply, Enabled, Inv, HearsRead, CallsOf;
    if n > 0 {
      ReadsAreHeardOnce(run, moves, n - 1, w, e);
      MoveCallsEvent(run, moves, n - 1, w, e);
      NobodyHearsNothing(run, moves, n - 1, w);
    } else {
      NobodyCalledYet(w, e);
    }
  }

  lemma NobodyCalledYet(w: nat, e: W.Event)
    ensures CallsOf(START.io, w, e) == 0
  {
  }

  lemma NobodyHearsNothing(run: seq<Sys>, moves: seq<Move>, n: nat, w: nat)
    requires n < |moves| < |run|
    ensures !HearsRead(run, moves, n, w, W.NoEvent)
  {
  }

  /** The watcher has not been created yet. */
  predicate Unborn(io: W.World, w: nat) { w !in io.watchers && w !in io.gone }

  lemma MoveKeepsDrained(s: Sys, m: Move, w: nat)
    requires Inv(true, s) && Enabled(true, s, m) && !TakesRead(s, m, w)
    ensures var t := Apply(true, s, m).io;
            && (Unborn(t, w) ==> Unborn(s.io, w))
            && (w in t.watchers && w in s.io.watchers ==> t.watchers[w].drained == s.io.watchers[w].drained)
            && (w in t.watchers && w !in s.io.watchers ==> Unborn(s.io, w) && t.watchers[w].drained == [])
  {
    if m.Io? {
      IoInv(s);
      if m.step.DispatchIo? {
        TakesHead(s.port);
      }
      hide Inv, S.Enabled, S.Next;
      StepKeepsDrained(s.port.History(), s.port.Done(), s.io, m.step, w);
    } else {
      hide Inv, S.Enabled, S.Next, T.Enabled, T.Next;
    }
  }

  lemma StepKeepsDrained(log: seq<P.Packet>, done: nat, io: W.World, step: S.Step, w: nat)
    requires S.Inv(true, log, done, io) && S.Enabled(true, log, done, io, step)
    requires step.DispatchIo? ==> !S.IsRead(log[done], w)
    ensures var t := S.Next(true, log, done, io, step).0;
            && (Unborn(t, w) ==> Unborn(io, w))
            && (w in t.watchers && w in io.watchers ==> t.watchers[w].drained == io.watchers[w].drained)
            && (w in t.watchers && w !in io.watchers ==> Unborn(io, w) && t.watchers[w].drained == [])
  {
    S.NextKeepsInv(true, log, done, io, step);
    WatchersComeAndGo(log, done, io, step, w);
    if w in io.watchers {
      if !Concerns(log, done, step, w) {
        OthersSeeNothing(log, done, io, step, w);
        hide S.Inv, S.Enabled, S.Next;
      } else {
        OwnStepKeepsDrained(log, done, io, step, w);
        hide S.Inv, S.Enabled, S.Next;
      }
    }
  }

  lemma WatchersComeAndGo(log: seq<P.Packet>, done: nat, io: W.World, step: S.Step, w: nat)
    requires S.Inv(true, log, done, io) && S.Enabled(true, log, done, io, step)
    ensures var t := S.Next(true, log, done, io, step).0;
            && (w in io.gone ==> w in t.gone) && (w in io.watchers ==> w in t.watchers || w in t.gone)
            && (w in t.watchers && w !in io.watchers ==> w !in io.gone && t.watchers[w].drained == [])
  {
    hide S.Good, S.NoWrites, S.MayStop, S.Unreferenced, W.Dispatch, W.KernelRead, W.Register, W.Update, W.Stop;
    match step
    case DispatchIo(plan) => DispatchKeepsWatchers(log, done, io, plan);
    case CompleteRead(l, status, data) => S.KernelReadShape(io, l, status, data);
    case Create(v, b, hasCallback, read) => NewWatcherIsEmpty(io, v, b, hasCallback, read);
    case Change(_, _, _) => OperationKeepsWatchers(log, done, io, step);
    case Halt(_, _) => OperationKeepsWatchers(log, done, io, step);
    case _ =>
  }

  lemma NewWatcherIsEmpty(io: W.World, v: nat, b: nat, hasCallback: bool, read: bool)
    ensures var t := W.Register(io, v, b, hasCallback, read);
            t.gone == io.gone && t.watchers.Keys == io.watchers.Keys + {v} && t.watchers[v].drained == []
  {
  }

  lemma DispatchKeepsWatchers(log: seq<P.Packet>, done: nat, io: W.World, plan: W.Plan)
    requires S.Inv(true, log, done, io) && S.Enabled(true, log, done, io, S.DispatchIo(plan))
    ensures var p := log[done];
            var t := W.Dispatch(io, p.watcher, p.overlapped, p.bytes, plan); t.watchers.Keys == io.watchers.Keys && t.gone == io.gone
  {
    var p := log[done];
    assert S.Good(true, log, done, io, p.watcher);
    S.InvIsApart(true, log, done, io, p.watcher);
    hide S.Inv, S.Good, W.Dispatch;
    S.DispatchIsLocal(io, p.watcher, p.overlapped, p.bytes, plan);
  }

  lemma OperationKeepsWatchers(log: seq<P.Packet>, done: nat, io: W.World, step: S.Step)
    requires S.Inv(true, log, done, io) && S.Enabled(true, log, done, io, step) && (step.Change? || step.Halt?)
    ensures var t := S.Next(true, log, done, io, step).0; t.watchers.Keys == io.watchers.Keys && t.gone == io.gone
  {
    assert S.Good(true, log, done, io, step.w);
    S.InvIsApart(true, log, done, io, step.w);
    hide S.Inv, S.Good, W.Update, W.Stop;
    if step.Change? {
      S.UpdateIsLocal(io, step.w, step.read, step.issued);
    } else {
      S.StopIsLocal(io, step.w, step.thread);
    }
  }

  lemma OwnStepKeepsDrained(log: seq<P.Packet>, done: nat, io: W.World, step: S.Step, w: nat)
    requires S.Inv(true, log, done, io) && S.Enabled(true, log, done, io, step) && w in io.watchers && Concerns(log, done, step, w)
    requires step.DispatchIo? ==> !S.IsRead(log[done], w)
    ensures var t := S.Next(true, log, done, io, step).0; w in t.watchers ==> t.watchers[w].drained == io.watchers[w].drained
  {
    if step.DispatchIo? {
      OperationsKeepDrained(W.Called(io, w, W.Write), w, step.plan.after);
      hide W.RunAfter, W.Consume, W.Rearm, S.Inv;
    } else {
      hide S.Inv, S.NoWrites, S.MayStop, W.Deposit;
    }
  }

  /** The bytes that a watcher's drain calls returned over a run are, in order, the first bytes of each READ
      that it heard, as many of each as its callback asked for: exactly what the kernel delivered for that
      read, none of it lost, repeated or of another read. */
  lemma {:induction false} DrainedIsReceived(run: seq<Sys>, moves: seq<Move>, n: nat, w: nat)
    requires IsRun(true, run, moves) && n < |run|
    ensures w in run[n].io.watchers ==> run[n].io.watchers[w].drained == Received(run, moves, n, w)
    ensures Unborn(run[n].io, w) ==> Received(run, moves, n, w) == []
  {
    hide Apply, Enabled, Inv;
    if n > 0 {
      DrainedIsReceived(run, moves, n - 1, w);
      RunIsSafe(true, run, moves, n - 1);
      if TakesRead(run[n - 1], moves[n - 1], w) {
        ReadTellsItsReport(run, moves, n - 1, w);
      } else {
        MoveKeepsDrained(run[n - 1], moves[n - 1], w);
      }
    }
  }
}
