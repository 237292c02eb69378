/** What the IOCP invariants mean over whole runs of the backend. */
module IocpResults {
  import P = IocpPort
  import W = IocpWatcher
  import S = IocpSafety
  import T = IocpTimer
  import opened Iocp
  import opened Options

  /** Any number of moves of any threads and the kernel, from the freshly created loop. */
  ghost predicate IsRun(strict: bool, run: seq<Sys>, moves: seq<Move>)
  {
    && |run| == |moves| + 1 && run[0] == START
    && forall i :: 0 <= i < |moves| ==> Enabled(strict, run[i], moves[i]) && run[i + 1] == Apply(strict, run[i], moves[i])
  }

  lemma {:induction false} RunIsSafe(strict: bool, run: seq<Sys>, moves: seq<Move>, i: nat)
    requires IsRun(strict, run, moves) && i < |run|
    ensures Inv(strict, run[i])
  {
    if i > 0 {
      RunIsSafe(strict, run, moves, i - 1);
      MoveKeepsInv(strict, run[i - 1], moves[i - 1]);
    }
  }

  /** Everything in the batch and in the queue, in dispatch order. */
  function Pending(s: Sys): seq<P.Packet> { s.port.batch + s.port.queue }

  lemma PendingIsHistory(s: Sys, k: nat)
    requires k < |Pending(s)|
    ensures s.port.Done() + k < |s.port.History()| && s.port.History()[s.port.Done() + k] == Pending(s)[k]
  {
  }

  /** The block of a read is its watcher's live platform_data, and marked as in use. */
  predicate SafelyLent(io: W.World, w: nat, b: nat)
  {
    && w in io.watchers && io.watchers[w].data == Some(b)
    && b in io.heap && io.heap[b].pending && b !in io.freed
  }

  /** Read-buffer safety, in every reachable state and under every interleaving: whatever read the
      kernel holds, and whatever read completion is in the batch or the queue, its block is allocated,
      is still its watcher's platform_data and is marked pending; a watcher has at most one such read;
      and no thread and no kernel write ever touched freed memory or freed a block twice. */
  lemma ReadBufferSafety(run: seq<Sys>, moves: seq<Move>, i: nat)
    requires IsRun(true, run, moves) && i < |run|
    ensures var s := run[i];
            && !s.io.loopFault && !s.io.kernelFault
            && (forall l <- s.io.lent :: SafelyLent(s.io, l.watcher, l.block) && s.io.lent[l] == 1)
            && (forall k :: 0 <= k < |Pending(s)| && Pending(s)[k].IoDone? && Pending(s)[k].overlapped.Embedded? ==>
                  var p := Pending(s)[k];
                  SafelyLent(s.io, p.watcher, p.overlapped.block) && W.Lent(p.watcher, p.overlapped.block) !in s.io.lent)
            && (forall k, m, w :: 0 <= k < m < |Pending(s)| ==> !(S.IsRead(Pending(s)[k], w) && S.IsRead(Pending(s)[m], w)))
  {
    RunIsSafe(true, run, moves, i);
    hide Inv, SafelyLent, S.IsRead;
    var s := run[i];
    forall l <- s.io.lent ensures SafelyLent(s.io, l.watcher, l.block) && s.io.lent[l] == 1 {
      LentIsSafe(s, l);
    }
    forall k | 0 <= k < |Pending(s)| && Pending(s)[k].IoDone? && Pending(s)[k].overlapped.Embedded?
      ensures var p := Pending(s)[k];
              SafelyLent(s.io, p.watcher, p.overlapped.block) && W.Lent(p.watcher, p.overlapped.block) !in s.io.lent
    {
      PendingReadIsSafe(s, k);
    }
    forall k, m, w | 0 <= k < m < |Pending(s)| ensures !(S.IsRead(Pending(s)[k], w) && S.IsRead(Pending(s)[m], w)) {
      PendingReadIsOnly(s, k, m, w);
    }
    NoFaults(s);
  }

  lemma NoFaults(s: Sys)
    requires Inv(true, s)
    ensures !s.io.loopFault && !s.io.kernelFault
  {
  }

  lemma LentIsSafe(s: Sys, l: W.Lent)
    requires Inv(true, s) && l in s.io.lent
    ensures SafelyLent(s.io, l.watcher, l.block) && s.io.lent[l] == 1
  {
    assert S.Good(true, s.port.History(), s.port.Done(), s.io, l.watcher);
    assert S.OwnsRead(s.io, l.watcher, l.block);
  }

  lemma PendingReadIsSafe(s: Sys, k: nat)
    requires Inv(true, s) && k < |Pending(s)| && Pending(s)[k].IoDone? && Pending(s)[k].overlapped.Embedded?
    ensures var p := Pending(s)[k];
            SafelyLent(s.io, p.watcher, p.overlapped.block) && W.Lent(p.watcher, p.overlapped.block) !in s.io.lent
  {
    var log, done := s.port.History(), s.port.Done();
    PendingIsHistory(s, k);
    assert S.Good(true, log, done, s.io, log[done + k].watcher);
    assert S.IsRead(log[done + k], log[done + k].watcher);
  }

  lemma PendingReadIsOnly(s: Sys, k: nat, m: nat, w: nat)
    requires Inv(true, s) && k < m < |Pending(s)|
    ensures !(S.IsRead(Pending(s)[k], w) && S.IsRead(Pending(s)[m], w))
  {
    PendingIsHistory(s, k);
    PendingIsHistory(s, m);
    if S.IsRead(Pending(s)[k], w) {
      assert S.Good(true, s.port.History(), s.port.Done(), s.io, w);
    }
  }

  /** Even when callers leave writes outstanding around a stop, the loop and the application threads
      never touch freed memory: in particular the status that dispatch reads through lpOverlapped is
      only ever read in the live platform_data of the completion's own watcher. */
  lemma LoopNeverTouchesFreedMemory(strict: bool, run: seq<Sys>, moves: seq<Move>, i: nat)
    requires IsRun(strict, run, moves) && i < |run|
    ensures !run[i].io.loopFault && !run[i].timers.fault
    ensures forall w <- run[i].io.watchers :: run[i].io.watchers[w].data.Some? ==>
              && run[i].io.watchers[w].data.value in run[i].io.heap
              && run[i].io.heap[run[i].io.watchers[w].data.value].owner == w
  {
    RunIsSafe(strict, run, moves, i);
    var s := run[i];
    forall w <- s.io.watchers | s.io.watchers[w].data.Some?
      ensures s.io.watchers[w].data.value in s.io.heap && s.io.heap[s.io.watchers[w].data.value].owner == w
    {
      assert S.Good(strict, s.port.History(), s.port.Done(), s.io, w);
    }
  }

  /** Stream integrity: over a whole run in which every READ callback drained its read, the bytes
      pd_watcher_drain_read returned are the bytes the kernel delivered, in order, without loss or
      repetition; only the completion that is not dispatched yet is still to come. */
  lemma StreamIntegrity(run: seq<Sys>, moves: seq<Move>, i: nat, w: nat)
    requires IsRun(true, run, moves) && i < |run| && w in run[i].io.watchers && run[i].io.watchers[w].thorough
    ensures var s := run[i];
            var x := s.io.watchers[w];
            && x.drained <= x.delivered
            && x.delivered == x.drained + x.undispatched
            && (x.active && x.hasCallback && (forall k :: 0 <= k < |Pending(s)| ==> !S.IsRead(Pending(s)[k], w))
                && x.data.Some? && x.data.value in s.io.heap && !s.io.heap[x.data.value].armFailed
                ==> x.delivered == x.drained)
  {
    RunIsSafe(true, run, moves, i);
    var s := run[i];
    var log, done := s.port.History(), s.port.Done();
    assert S.Good(true, log, done, s.io, w);
    var x := s.io.watchers[w];
    if x.active && x.hasCallback && (forall k :: 0 <= k < |Pending(s)| ==> !S.IsRead(Pending(s)[k], w))
       && !s.io.heap[x.data.value].armFailed {
      forall j | done <= j < |log| ensures !S.IsRead(log[j], w) {
        PendingIsHistory(s, j - done);
      }
      if s.io.heap[x.data.value].pending {
        assert !S.NoReads(log, done, s.io, w);
        var b :| W.Lent(w, b) in s.io.lent;
        assert S.OwnsRead(s.io, w, b);
      }
    }
  }

  /** Timer safety: every timer packet still to be dispatched names an allocated timer, and so does the
      one that the loop is in the middle of dispatching; a timer whose drain was consumed is named by
      none. */
  lemma TimerPacketsNameLiveTimers(strict: bool, run: seq<Sys>, moves: seq<Move>, i: nat)
    requires IsRun(strict, run, moves) && i < |run|
    ensures var s := run[i];
            && (forall k :: 0 <= k < |Pending(s)| && Pending(s)[k].TimerFired? ==>
                  Pending(s)[k].timer in s.timers.timers && Pending(s)[k].timer !in s.timers.gone)
            && (!s.timers.loopAt.Between? ==> s.timers.loopAt.timer in s.timers.timers && s.timers.loopAt.timer !in s.timers.gone)
            && !s.timers.fault
  {
    RunIsSafe(strict, run, moves, i);
    forall k | 0 <= k < |Pending(run[i])| && Pending(run[i])[k].TimerFired?
      ensures Pending(run[i])[k].timer in run[i].timers.timers && Pending(run[i])[k].timer !in run[i].timers.gone
    {
      PendingIsHistory(run[i], k);
    }
  }

  lemma MoveKeepsSilence(strict: bool, s: Sys, m: Move, t: nat)
    requires Inv(strict, s) && Enabled(strict, s, m) && T.Doomed(s.timers, t)
    ensures var s' := Apply(strict, s, m);
            T.Doomed(s'.timers, t) && T.Calls(s'.timers, t) == T.Calls(s.timers, t)
  {
    hide S.Inv, S.Enabled;
    if m.Timer? {
      T.DoomedNeverFires(s.port.History(), s.port.Done(), s.timers, m.tstep, t);
    }
  }

  /** From the moment destroy sets `destroyed`, no dispatch runs the timer's callback any more: the only
      call that can still come is one for which the loop had already found the flag clear. */
  lemma {:induction false} DestroyedTimerIsSilent(strict: bool, run: seq<Sys>, moves: seq<Move>, i: nat, j: nat, t: nat)
    requires IsRun(strict, run, moves) && i <= j < |run| && T.Doomed(run[i].timers, t)
    ensures T.Doomed(run[j].timers, t) && T.Calls(run[j].timers, t) == T.Calls(run[i].timers, t)
    ensures run[i].timers.loopAt != T.Calling(t) ==> multiset(run[j].timers.fired)[t] == multiset(run[i].timers.fired)[t]
    decreases j
  {
    hide Apply, Enabled, Inv;
    if i < j {
      DestroyedTimerIsSilent(strict, run, moves, i, j - 1, t);
      RunIsSafe(strict, run, moves, j - 1);
      MoveKeepsSilence(strict, run[j - 1], moves[j - 1], t);
      FiredGrows(strict, run, moves, i, j, t);
    }
  }

  lemma {:induction false} FiredGrows(strict: bool, run: seq<Sys>, moves: seq<Move>, i: nat, j: nat, t: nat)
    requires IsRun(strict, run, moves) && i <= j < |run|
    ensures multiset(run[i].timers.fired)[t] <= multiset(run[j].timers.fired)[t]
    decreases j
  {
    hide Apply, Enabled;
    if i < j {
      FiredGrows(strict, run, moves, i, j - 1, t);
      FiredGrowsBy(strict, run[j - 1], moves[j - 1], t);
    }
  }

  lemma FiredGrowsBy(strict: bool, s: Sys, m: Move, t: nat)
    requires Enabled(strict, s, m)
    ensures multiset(s.timers.fired)[t] <= multiset(Apply(strict, s, m).timers.fired)[t]
  {
    hide S.Enabled;
  }

  /* ---------------- the order of packets over a run ---------------- */

  lemma MoveGrowsHistory(strict: bool, s: Sys, m: Move)
    requires Enabled(strict, s, m)
    ensures s.port.History() <= Apply(strict, s, m).port.History() && s.port.Done() <= Apply(strict, s, m).port.Done()
  {
    hide S.Enabled, S.Next, T.Enabled, T.Next;
    match m
    case Fetch(n) => P.MoveKeepsOrder(s.port, P.Fetch(n));
    case PostWake => P.MoveKeepsOrder(s.port, P.Post(P.Wake));
    case SkipPacket => P.MoveKeepsOrder(s.port, P.Take);
    case Io(step) =>
      if step.DispatchIo? {
        P.MoveKeepsOrder(s.port, P.Take);
      }
    case Timer(step) =>
      if step.TakeTimer? {
        P.MoveKeepsOrder(s.port, P.Take);
      }
    case EnterLoop(_) =>
  }

  /** Over any run packets are only added behind the others, and dispatched in that order. */
  lemma {:induction false} HistoryGrows(strict: bool, run: seq<Sys>, moves: seq<Move>, i: nat, j: nat)
    requires IsRun(strict, run, moves) && i <= j < |run|
    ensures run[i].port.History() <= run[j].port.History() && run[i].port.Done() <= run[j].port.Done()
    decreases j
  {
    hide Apply, Enabled;
    if i < j {
      HistoryGrows(strict, run, moves, i, j - 1);
      MoveGrowsHistory(strict, run[j - 1], moves[j - 1]);
    }
  }
}
