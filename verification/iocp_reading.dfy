/** The read of an IOCP watcher as its caller sees it: a small machine that says when a read is asked of the
    kernel again, when not, and when the platform_data goes; and the proof that the backend, with its
    pending and stopping flags spread over dispatch, update and unregister, implements it. */
module IocpReading {
  import P = IocpPort
  import W = IocpWatcher
  import S = IocpSafety
  import T = IocpTimer
  import opened Iocp
  import opened IocpResults
  import opened IocpWrites
  import opened IocpReads
  import opened Options

  /* ---------------- the machine ---------------- */

  /** No read is out; one is, with the kernel or as a completion that is not dispatched yet; none is and
      none can be asked for any more, since the flag is set that says one is out; or the platform_data
      has been freed. */
  datatype Reading = Idle | InFlight | Wedged | Gone

  datatype View = View(active: bool, reading: Reading)

  /** An update that asks for READ gets a read out of an idle watcher, or wedges it when the kernel refuses. */
  function Asked(v: View, read: bool, issued: bool): View
  {
    if v.active && read && v.reading.Idle? then v.(reading := if issued then InFlight else Wedged) else v
  }

  /** A stop frees the platform_data at once when no read is marked as out. */
  function Stopped(v: View): View
  {
    if v.active then View(false, if v.reading.Idle? then Gone else v.reading) else v
  }

  function Returned(v: View, after: W.After): View
  {
    match after
    case StopSelf => Stopped(v)
    case UpdateSelf(read, issued) => Asked(v, read, issued)
    case _ => v
  }

  /** A completed read.  Without a callback nothing is done, and nothing is read again.  A stopped watcher
      is freed.  Else the callback, if there is something to tell, finds the watcher idle; and after
      bytes, unless it stopped the watcher, the next read is asked for. */
  function ReadDone(v: View, hasCallback: bool, event: Option<W.Event>, plan: W.Plan): View
  {
    if !hasCallback then v.(reading := Wedged)
    else if !v.active then v.(reading := Gone)
    else if event.None? then v.(reading := Idle)
    else
      var u := Returned(v.(reading := Idle), plan.after);
      if event.value.Read? && u.active then u.(reading := if plan.reissued then InFlight else Idle) else u
  }

  /** A completed write of the caller's own: the callback of a registered watcher, or the end of a wedged
      watcher that was stopped. */
  function WriteDone(v: View, hasCallback: bool, plan: W.Plan): View
  {
    if !hasCallback || v.reading.Gone? then v
    else if v.active then Returned(v, plan.after)
    else v.(reading := Gone)
  }

  /** One move of anyone, for watcher w; c is what the kernel reported for the read that the move dispatches. */
  function Then(v: View, hasCallback: bool, s: Sys, m: Move, w: nat, c: Option<Outcome>): View
  {
    if !m.Io? then v
    else match m.step
         case Change(x, read, issued) => if x == w then Asked(v, read, issued) else v
         case Halt(x, _) => if x == w then Stopped(v) else v
         case DispatchIo(plan) =>
           if s.port.batch == [] || !S.Keyed(s.port.batch[0], w) then v
           else if S.IsWrite(s.port.batch[0], w) then WriteDone(v, hasCallback, plan)
           else ReadDone(v, hasCallback, if c.Some? then EventFor(c.value) else None, plan)
         case _ => v
  }

  /* ---------------- what the backend's state stands for ---------------- */

  ghost function SeenIn(log: seq<P.Packet>, done: nat, io: W.World, w: nat): View
    requires w in io.watchers
  {
    var x := io.watchers[w];
    View(x.active,
         if x.data.None? || x.data.value !in io.heap then Gone
         else if !io.heap[x.data.value].pending then Idle
         else if S.NoReads(log, done, io, w) then Wedged
         else InFlight)
  }

  ghost function Seen(s: Sys, w: nat): View
    requires w in s.io.watchers
  {
    SeenIn(s.port.History(), s.port.Done(), s.io, w)
  }

  /** In flight means that the kernel holds a read of the watcher, or its completion is to be dispatched. */
  lemma InFlightMeansOutstanding(s: Sys, w: nat)
    requires Inv(true, s) && w in s.io.watchers
    ensures Seen(s, w).reading.InFlight? <==> !S.NoReads(s.port.History(), s.port.Done(), s.io, w)
    ensures Seen(s, w).reading.Gone? <==> s.io.watchers[w].data.None?
  {
    var log, done := s.port.History(), s.port.Done();
    assert S.Good(true, log, done, s.io, w);
    if i :| done <= i < |log| && S.IsRead(log[i], w) {
      assert S.OwnsRead(s.io, w, log[i].overlapped.block);
    }
  }

  lemma SeenAlike(log: seq<P.Packet>, done: nat, io: W.World, log': seq<P.Packet>, done': nat, t: W.World, w: nat)
    requires w in io.watchers && w in t.watchers
    requires t.watchers[w].active == io.watchers[w].active && t.watchers[w].data == io.watchers[w].data
    requires var d := io.watchers[w].data;
             d.Some? ==> (d.value in io.heap <==> d.value in t.heap) && (d.value in io.heap ==> io.heap[d.value].pending == t.heap[d.value].pending)
    requires S.NoReads(log, done, io, w) <==> S.NoReads(log', done', t, w)
    ensures SeenIn(log', done', t, w) == SeenIn(log, done, io, w)
  {
  }

  lemma SameReads(log: seq<P.Packet>, done: nat, io: W.World, t: W.World, w: nat)
    requires forall b :: io.lent[W.Lent(w, b)] == t.lent[W.Lent(w, b)]
    ensures S.NoReads(log, done, io, w) <==> S.NoReads(log, done, t, w)
  {
    forall b ensures W.Lent(w, b) in io.lent <==> W.Lent(w, b) in t.lent {
      assert io.lent[W.Lent(w, b)] == t.lent[W.Lent(w, b)];
    }
  }

  /* ---------------- the operations ---------------- */

  /** The parts of the invariant that are needed. */
  ghost predicate Ready(log: seq<P.Packet>, done: nat, io: W.World, w: nat)
  {
    w in io.watchers && S.Sound(io, w) && S.Lending(log, done, io, w)
  }

  lemma IdleHasNoReads(log: seq<P.Packet>, done: nat, io: W.World, w: nat)
    requires Ready(log, done, io, w) && io.watchers[w].data.Some? && !io.heap[io.watchers[w].data.value].pending
    ensures S.NoReads(log, done, io, w)
  {
    assert forall b: nat :: W.Lent(w, b) in io.lent ==> S.OwnsRead(io, w, b);
  }

  lemma UpdateIsAsked(log: seq<P.Packet>, done: nat, io: W.World, w: nat, read: bool, issued: bool)
    requires Ready(log, done, io, w)
    ensures var t := W.Update(io, w, read, issued);
            w in t.watchers && SeenIn(log, done, t, w) == Asked(SeenIn(log, done, io, w), read, issued)
  {
    if io.watchers[w].data.Some? && !io.heap[io.watchers[w].data.value].pending {
      IdleHasNoReads(log, done, io, w);
    }
    hide S.Lending;
    var t := W.Update(io, w, read, issued);
    if issued {
      assert t == io || W.Lent(w, io.watchers[w].data.value) in t.lent;
    }
  }

  lemma StopIsStopped(log: seq<P.Packet>, done: nat, io: W.World, w: nat, thread: nat)
    requires Ready(log, done, io, w)
    ensures var t := W.Stop(io, w, thread);
            w in t.watchers && SeenIn(log, done, t, w) == Stopped(SeenIn(log, done, io, w))
  {
    S.StopSelf(io, w, thread);
    hide W.Stop, S.Lending;
    SameReads(log, done, io, W.Stop(io, w, thread), w);
  }

  lemma AfterIsReturned(log: seq<P.Packet>, done: nat, io: W.World, w: nat, after: W.After)
    requires Ready(log, done, io, w) && !after.DestroySelf?
    ensures var t := W.RunAfter(io, w, after);
            w in t.watchers && SeenIn(log, done, t, w) == Returned(SeenIn(log, done, io, w), after)
  {
    hide W.Stop, W.Update, S.Lending;
    match after
    case Return =>
    case StopSelf => StopIsStopped(log, done, io, w, io.loopThread);
    case UpdateSelf(read, issued) => UpdateIsAsked(log, done, io, w, read, issued);
  }

  /** The re-arm after bytes. */
  lemma RearmReads(log: seq<P.Packet>, done: nat, io: W.World, w: nat, e: W.Event, issued: bool)
    requires w in io.watchers && S.Sound(io, w)
    requires e.Read? && io.watchers[w].active ==> S.NoReads(log, done, io, w)
    requires e.Read? && !io.watchers[w].active ==> io.watchers[w].data.None?
    ensures var t, v := W.Rearm(io, w, e, issued), SeenIn(log, done, io, w);
            && w in t.watchers
            && SeenIn(log, done, t, w) == if e.Read? && v.active then v.(reading := if issued then InFlight else Idle) else v
  {
    if e.Read? && io.watchers[w].active && issued {
      assert W.Lent(w, io.watchers[w].data.value) in W.Rearm(io, w, e, issued).lent;
    }
  }

  /** Without a read of its own the watcher is Ready. */
  lemma NoReadsIsReady(log: seq<P.Packet>, done: nat, io: W.World, w: nat)
    requires w in io.watchers && S.Sound(io, w) && S.NoReads(log, done, io, w)
    ensures Ready(log, done, io, w)
  {
  }

  /** A callback that does not issue a read by updating its watcher leaves none out. */
  lemma ReturnedHasNoReads(log: seq<P.Packet>, done: nat, io: W.World, w: nat, after: W.After)
    requires w in io.watchers && S.Sound(io, w) && S.NoReads(log, done, io, w) && !after.DestroySelf? && after != W.UpdateSelf(true, true)
    requires io.watchers[w].data.Some? && io.watchers[w].active && !io.heap[io.watchers[w].data.value].pending
    ensures var t := W.RunAfter(io, w, after);
            && w in t.watchers && S.Sound(t, w) && S.NoReads(log, done, t, w) && (!t.watchers[w].active ==> t.watchers[w].data.None?)
  {
    S.SoundAfter(io, w, after);
    S.StopSelf(io, w, io.loopThread);
    hide W.Stop;
    SameReads(log, done, io, W.RunAfter(io, w, after), w);
  }

  /** A read completion of a registered watcher with a callback, that is not cancelled. */
  lemma HeardReadIsDone(log: seq<P.Packet>, done: nat, io: W.World, w: nat, b: nat, c: Outcome, plan: W.Plan)
    requires w in io.watchers && S.Sound(io, w) && io.watchers[w].active && io.watchers[w].hasCallback && io.watchers[w].data == Some(b)
    requires Holds(io, b, c) && io.heap[b].pending && !c.status.Cancelled? && S.NoReads(log, done, io, w)
    requires !plan.after.DestroySelf? && (plan.after == W.UpdateSelf(true, true) ==> EventFor(c) != Some(W.Read))
    ensures var t := W.Dispatch(io, w, P.Embedded(b), |c.data|, plan);
            w in t.watchers && SeenIn(log, done, t, w) == ReadDone(SeenIn(log, done, io, w), true, EventFor(c), plan)
  {
    var s1 := W.Consume(io, w, b, |c.data|, plan.lens);
    var e := W.EventOf(io.heap[b], |c.data|);
    ConsumeHandsOver(io, w, b, c, plan.lens);
    S.ThoroughOnly(io, w, b, |c.data|, plan.lens);
    S.SoundAfterConsume(io, w, b, |c.data|, plan.lens);
    hide W.Consume, W.RunAfter, W.Rearm, W.EventOf, S.Lending;
    SameReads(log, done, io, s1, w);
    NoReadsIsReady(log, done, s1, w);
    AfterIsReturned(log, done, s1, w, plan.after);
    S.SoundAfter(s1, w, plan.after);
    if e.Read? {
      ReturnedHasNoReads(log, done, s1, w, plan.after);
    }
    RearmReads(log, done, W.RunAfter(s1, w, plan.after), w, e, plan.reissued);
  }

  lemma DispatchedReadIsDone(log: seq<P.Packet>, done: nat, io: W.World, plan: W.Plan, w: nat, c: Outcome)
    requires S.Inv(true, log, done, io) && S.Enabled(true, log, done, io, S.DispatchIo(plan)) && S.IsRead(log[done], w)
    requires Holds(io, log[done].overlapped.block, c) && |c.data| == log[done].bytes
    ensures var p := log[done];
            var t := W.Dispatch(io, w, p.overlapped, p.bytes, plan);
            && w in io.watchers && w in t.watchers && t.watchers[w].hasCallback == io.watchers[w].hasCallback
            && SeenIn(log, done + 1, t, w) == ReadDone(SeenIn(log, done, io, w), io.watchers[w].hasCallback, EventFor(c), plan)
  {
    hide S.Inv, W.Dispatch, Holds, S.OwnsRead, S.Sound;
    var b := log[done].overlapped.block;
    NextReadIsOwned(log, done, io, w);
    LastRead(log, done, io, w);
    DispatchKeepsCallback(io, w, log[done].overlapped, log[done].bytes, plan);
    if EventFor(c) == Some(W.Read) {
      RaisedByReport(io, log[done], w, c);
    }
    OwnedReadIsDone(log, done, io, w, b, plan, c);
  }

  lemma OwnedReadIsDone(log: seq<P.Packet>, done: nat, io: W.World, w: nat, b: nat, plan: W.Plan, c: Outcome)
    requires w in io.watchers && S.OwnsRead(io, w, b) && S.Sound(io, w) && !plan.after.DestroySelf?
    requires Holds(io, b, c) && S.NoReads(log, done + 1, io, w) && !S.NoReads(log, done, io, w)
    requires plan.after == W.UpdateSelf(true, true) ==> EventFor(c) != Some(W.Read)
    ensures var t := W.Dispatch(io, w, P.Embedded(b), |c.data|, plan);
            && w in t.watchers
            && SeenIn(log, done + 1, t, w) == ReadDone(SeenIn(log, done, io, w), io.watchers[w].hasCallback, EventFor(c), plan)
  {
    var x := io.watchers[w];
    hide W.Consume, W.RunAfter, W.Rearm, W.EventOf, S.NoReads, Returned;
    if x.hasCallback && x.active && !c.status.Cancelled? {
      HeardReadIsDone(log, done + 1, io, w, b, c, plan);
    } else {
      SameReads(log, done + 1, io, W.Dispatch(io, w, P.Embedded(b), |c.data|, plan), w);
    }
  }

  lemma RaisedByReport(io: W.World, p: P.Packet, w: nat, c: Outcome)
    requires S.IsRead(p, w) && w in io.watchers && S.OwnsRead(io, w, p.overlapped.block)
    requires Holds(io, p.overlapped.block, c) && |c.data| == p.bytes && EventFor(c) == Some(W.Read)
    ensures S.RaisesRead(io, p)
  {
  }

  lemma LastRead(log: seq<P.Packet>, done: nat, io: W.World, w: nat)
    requires S.Inv(true, log, done, io) && done < |log| && S.IsRead(log[done], w) && w in io.watchers
    ensures S.NoReads(log, done + 1, io, w) && !S.NoReads(log, done, io, w)
  {
    assert S.Good(true, log, done, io, w);
    S.TakenIsLast(log, done, io, w);
  }

  lemma DispatchKeepsCallback(io: W.World, w: nat, ov: P.Overlapped, bytes: nat, plan: W.Plan)
    requires w in io.watchers && (ov.Embedded? ==> bytes <= W.BUFFER_SIZE) && !plan.after.DestroySelf?
    ensures var t := W.Dispatch(io, w, ov, bytes, plan); w in t.watchers && t.watchers[w].hasCallback == io.watchers[w].hasCallback
  {
    hide W.Consume, W.RunAfter, W.Rearm, W.EventOf;
    AfterKeepsCallback(W.Called(io, w, W.Write), w, plan.after);
    if io.watchers[w].data.Some? && io.watchers[w].data.value in io.heap && ov == P.Embedded(io.watchers[w].data.value) {
      var b := io.watchers[w].data.value;
      ConsumeKeepsCallback(io, w, b, bytes, plan.lens);
      var s1 := W.Consume(io, w, b, bytes, plan.lens);
      AfterKeepsCallback(s1, w, plan.after);
      RearmAddsNoWatcher(W.RunAfter(s1, w, plan.after), w, W.EventOf(io.heap[b], bytes), plan.reissued);
    }
  }

  lemma ConsumeKeepsCallback(io: W.World, w: nat, b: nat, bytes: W.Length, lens: seq<nat>)
    requires w in io.watchers && b in io.heap
    ensures var t := W.Consume(io, w, b, bytes, lens); w in t.watchers && t.watchers[w].hasCallback == io.watchers[w].hasCallback
  {
    hide W.DrainMany;
  }

  lemma AfterKeepsCallback(io: W.World, w: nat, after: W.After)
    requires w in io.watchers && !after.DestroySelf?
    ensures var t := W.RunAfter(io, w, after); w in t.watchers && t.watchers[w].hasCallback == io.watchers[w].hasCallback
  {
  }

  lemma DispatchedWriteIsDone(log: seq<P.Packet>, done: nat, io: W.World, plan: W.Plan, w: nat)
    requires S.Inv(true, log, done, io) && S.Enabled(true, log, done, io, S.DispatchIo(plan)) && S.IsWrite(log[done], w)
    ensures var p := log[done];
            var t := W.Dispatch(io, w, p.overlapped, p.bytes, plan);
            && w in io.watchers && w in t.watchers && t.watchers[w].hasCallback == io.watchers[w].hasCallback
            && SeenIn(log, done + 1, t, w) == WriteDone(SeenIn(log, done, io, w), io.watchers[w].hasCallback, plan)
  {
    hide S.Inv, W.Dispatch, S.Sound, S.Lending, S.NoReads, Ready, SeenIn, WriteDone;
    WriteIsNext(log, done, io, w);
    DispatchKeepsCallback(io, w, log[done].overlapped, log[done].bytes, plan);
    OwnWriteIsDone(log, done, io, plan, w, log[done].overlapped, log[done].bytes);
  }

  lemma WriteIsNext(log: seq<P.Packet>, done: nat, io: W.World, w: nat)
    requires S.Inv(true, log, done, io) && done < |log| && S.IsWrite(log[done], w)
    ensures w in io.watchers && Ready(log, done, io, w) && Ready(log, done + 1, io, w) && (S.NoReads(log, done, io, w) <==> S.NoReads(log, done + 1, io, w))
  {
    assert S.Good(true, log, done, io, w);
    S.OtherPacketIsNoRead(log, done, io, w, log[done]);
  }

  lemma OwnWriteIsDone(log: seq<P.Packet>, done: nat, io: W.World, plan: W.Plan, w: nat, ov: P.Overlapped, bytes: nat)
    requires Ready(log, done + 1, io, w) && ov.Callers? && !plan.after.DestroySelf?
    requires S.NoReads(log, done, io, w) <==> S.NoReads(log, done + 1, io, w)
    ensures var t := W.Dispatch(io, w, ov, bytes, plan);
            w in t.watchers && SeenIn(log, done + 1, t, w) == WriteDone(SeenIn(log, done, io, w), io.watchers[w].hasCallback, plan)
  {
    var called := W.Called(io, w, W.Write);
    hide W.Consume, W.RunAfter, W.Rearm, S.Lending, Returned;
    SameReads(log, done + 1, io, called, w);
    CalledIsReady(log, done + 1, io, w);
    AfterIsReturned(log, done + 1, called, w, plan.after);
    if !io.watchers[w].hasCallback || !io.watchers[w].active {
      SameReads(log, done + 1, io, W.Dispatch(io, w, ov, bytes, plan), w);
    }
  }

  lemma CalledIsReady(log: seq<P.Packet>, done: nat, io: W.World, w: nat)
    requires Ready(log, done, io, w)
    ensures Ready(log, done, W.Called(io, w, W.Write), w)
  {
  }

  /* ---------------- the other steps ---------------- */

  lemma CompletionStaysInFlight(log: seq<P.Packet>, done: nat, io: W.World, l: W.Lent, status: W.Status, data: seq<W.byte>)
    requires S.Inv(true, log, done, io) && l in io.lent && |data| <= W.BUFFER_SIZE
    ensures var w, t := l.watcher, W.KernelRead(io, l, status, data);
            && w in io.watchers && w in t.watchers && t.watchers[w].hasCallback == io.watchers[w].hasCallback
            && SeenIn(log + [P.IoDone(w, P.Embedded(l.block), |data|)], done, t, w) == SeenIn(log, done, io, w)
  {
    var w, t, x := l.watcher, W.KernelRead(io, l, status, data), P.IoDone(l.watcher, P.Embedded(l.block), |data|);
    assert S.Good(true, log, done, io, w);
    assert S.OwnsRead(io, w, l.block);
    S.KernelReadShape(io, l, status, data);
    hide W.KernelRead, S.Inv, S.Good;
    assert S.IsRead((log + [x])[|log|], w);
    assert W.Lent(w, l.block) in io.lent;
    SeenAlike(log, done, io, log + [x], done, t, w);
  }

  lemma PhaseIsNotSeen(log: seq<P.Packet>, done: nat, io: W.World, step: S.Step, w: nat)
    requires S.Enabled(true, log, done, io, step) && w in io.watchers && done <= |log|
    requires step.PostSync? || step.SyncSeen? || step.SyncTimedOut? || step.BeginWrite? || step.KernelWrite?
    ensures var (t, posts) := S.Next(true, log, done, io, step);
            && w in t.watchers && t.watchers[w].hasCallback == io.watchers[w].hasCallback
            && SeenIn(log + posts, done, t, w) == SeenIn(log, done, io, w)
  {
    hide S.NoWrites;
    var (t, posts) := S.Next(true, log, done, io, step);
    PostsLeaveReads(log, done, io, posts, w);
    SameReads(log + posts, done, io, t, w);
    SeenAlike(log, done, io, log + posts, done, t, w);
  }

  lemma PostsLeaveReads(log: seq<P.Packet>, done: nat, io: W.World, posts: seq<P.Packet>, w: nat)
    requires done <= |log| && |posts| <= 1 && forall x <- posts :: !S.IsRead(x, w)
    ensures S.NoReads(log + posts, done, io, w) <==> S.NoReads(log, done, io, w)
  {
    if posts == [] {
      assert log + posts == log;
    } else {
      assert posts == [posts[0]];
      S.OtherPacketIsNoRead(log, done, io, w, posts[0]);
    }
  }

  /** A step of another watcher, posting or taking what is no read of w. */
  lemma OthersAreNotSeen(log: seq<P.Packet>, done: nat, io: W.World, step: S.Step, w: nat)
    requires S.Inv(true, log, done, io) && S.Enabled(true, log, done, io, step) && w in io.watchers && !Concerns(log, done, step, w)
    ensures var (t, posts) := S.Next(true, log, done, io, step);
            && w in t.watchers && t.watchers[w].hasCallback == io.watchers[w].hasCallback
            && SeenIn(log + posts, done + (if step.DispatchIo? then 1 else 0), t, w) == SeenIn(log, done, io, w)
  {
    OthersSeeNothing(log, done, io, step, w);
    OthersPostNoRead(log, done, io, step, w);
    var (t, posts) := S.Next(true, log, done, io, step);
    var done' := done + if step.DispatchIo? then 1 else 0;
    hide S.Inv, S.Enabled, S.Next;
    PostsLeaveReads(log, done', io, posts, w);
    if step.DispatchIo? {
      S.OtherPacketIsNoRead(log, done, io, w, log[done]);
    }
    SameReads(log + posts, done', io, t, w);
    SeenAlike(log, done, io, log + posts, done', t, w);
  }

  lemma OthersPostNoRead(log: seq<P.Packet>, done: nat, io: W.World, step: S.Step, w: nat)
    requires S.Inv(true, log, done, io) && S.Enabled(true, log, done, io, step) && !Concerns(log, done, step, w)
    ensures var posts := S.Next(true, log, done, io, step).1; |posts| <= 1 && forall x <- posts :: !S.IsRead(x, w)
    ensures done <= |log| && (step.DispatchIo? ==> done < |log| && !S.IsRead(log[done], w))
  {
    hide S.Good, S.NoWrites;
  }

  lemma OperationFollows(log: seq<P.Packet>, done: nat, io: W.World, step: S.Step, w: nat)
    requires S.Inv(true, log, done, io) && S.Enabled(true, log, done, io, step) && (step.Change? || step.Halt?) && step.w == w
    ensures w in io.watchers
    ensures var (t, posts) := S.Next(true, log, done, io, step);
            && w in t.watchers && t.watchers[w].hasCallback == io.watchers[w].hasCallback
            && SeenIn(log + posts, done, t, w)
               == if step.Change? then Asked(SeenIn(log, done, io, w), step.read, step.issued) else Stopped(SeenIn(log, done, io, w))
  {
    hide SeenIn, W.Update, W.Stop, S.Inv, S.MayStop;
    assert log + [] == log;
    InvIsReady(log, done, io, w);
    if step.Change? {
      UpdateIsAsked(log, done, io, w, step.read, step.issued);
      UpdateKeepsCallback(io, w, step.read, step.issued);
    } else {
      StopIsStopped(log, done, io, w, step.thread);
      StopKeepsCallback(io, w, step.thread);
    }
  }

  lemma UpdateKeepsCallback(io: W.World, w: nat, read: bool, issued: bool)
    requires w in io.watchers
    ensures var t := W.Update(io, w, read, issued); w in t.watchers && t.watchers[w].hasCallback == io.watchers[w].hasCallback
  {
  }

  lemma StopKeepsCallback(io: W.World, w: nat, thread: nat)
    requires w in io.watchers
    ensures var t := W.Stop(io, w, thread); w in t.watchers && t.watchers[w].hasCallback == io.watchers[w].hasCallback
  {
  }

  lemma DispatchFollows(log: seq<P.Packet>, done: nat, io: W.World, plan: W.Plan, w: nat, c: Option<Outcome>)
    requires S.Inv(true, log, done, io) && S.Enabled(true, log, done, io, S.DispatchIo(plan)) && S.Keyed(log[done], w)
    requires S.IsRead(log[done], w) ==> c.Some? && Holds(io, log[done].overlapped.block, c.value) && |c.value.data| == log[done].bytes
    ensures w in io.watchers
    ensures var (t, posts) := S.Next(true, log, done, io, S.DispatchIo(plan));
            && w in t.watchers && t.watchers[w].hasCallback == io.watchers[w].hasCallback
            && SeenIn(log + posts, done + 1, t, w)
               == if S.IsWrite(log[done], w) then WriteDone(SeenIn(log, done, io, w), io.watchers[w].hasCallback, plan)
                  else ReadDone(SeenIn(log, done, io, w), io.watchers[w].hasCallback, if c.Some? then EventFor(c.value) else None, plan)
  {
    hide SeenIn, W.Dispatch, S.Inv, Holds, Returned, S.NoWrites, S.RaisesRead, ReadDone, WriteDone;
    assert log + [] == log;
    if S.IsRead(log[done], w) {
      DispatchedReadIsDone(log, done, io, plan, w, c.value);
    } else {
      DispatchedWriteIsDone(log, done, io, plan, w);
    }
  }

  lemma CompletionFollows(log: seq<P.Packet>, done: nat, io: W.World, step: S.Step)
    requires S.Inv(true, log, done, io) && S.Enabled(true, log, done, io, step) && step.CompleteRead?
    ensures var (t, posts) := S.Next(true, log, done, io, step);
            && step.l.watcher in io.watchers && step.l.watcher in t.watchers
            && t.watchers[step.l.watcher].hasCallback == io.watchers[step.l.watcher].hasCallback
            && SeenIn(log + posts, done, t, step.l.watcher) == SeenIn(log, done, io, step.l.watcher)
  {
    hide SeenIn, W.KernelRead, S.Inv;
    CompletionStaysInFlight(log, done, io, step.l, step.status, step.data);
  }

  lemma ComesOrGoes(log: seq<P.Packet>, done: nat, io: W.World, step: S.Step)
    requires S.Enabled(true, log, done, io, step) && (step.Create? || step.Destroy?)
    ensures step.w !in io.watchers || step.w !in S.Next(true, log, done, io, step).0.watchers
  {
    hide S.Unreferenced;
  }

  /** One step of the watchers, for watcher w, is one of the machine. */
  lemma StepFollows(s: Sys, step: S.Step, w: nat, c: Option<Outcome>)
    requires Inv(true, s) && Enabled(true, s, Io(step)) && w in s.io.watchers
    requires var log, done := s.port.History(), s.port.Done();
             && S.Enabled(true, log, done, s.io, step)
             && w in S.Next(true, log, done, s.io, step).0.watchers
             && (TakesRead(s, Io(step), w) ==> c.Some? && Holds(s.io, s.port.batch[0].overlapped.block, c.value) && |c.value.data| == s.port.batch[0].bytes)
    ensures var log, done := s.port.History(), s.port.Done();
            var (t, posts) := S.Next(true, log, done, s.io, step);
            && t.watchers[w].hasCallback == s.io.watchers[w].hasCallback
            && SeenIn(log + posts, done + (if step.DispatchIo? then 1 else 0), t, w)
               == Then(SeenIn(log, done, s.io, w), s.io.watchers[w].hasCallback, s, Io(step), w, c)
  {
    hide Enabled, Inv, S.Enabled, S.Next, S.Inv, SeenIn, Holds, Asked, Stopped, ReadDone, WriteDone;
    var log, done := s.port.History(), s.port.Done();
    IoInv(s);
    if step.DispatchIo? {
      HeadIsNext(s, step.plan);
    }
    if !Concerns(log, done, step, w) {
      OthersAreNotSeen(log, done, s.io, step, w);
    } else {
      match step
      case Create(_, _, _, _) => ComesOrGoes(log, done, s.io, step);
      case Destroy(_) => ComesOrGoes(log, done, s.io, step);
      case Change(_, _, _) => OperationFollows(log, done, s.io, step, w);
      case Halt(_, _) => OperationFollows(log, done, s.io, step, w);
      case CompleteRead(_, _, _) => CompletionFollows(log, done, s.io, step);
      case DispatchIo(plan) => DispatchFollows(log, done, s.io, plan, w, c);
      case _ =>
        DoneIsWithin(s);
        PhaseIsNotSeen(log, done, s.io, step, w);
    }
  }

  lemma HeadIsNext(s: Sys, plan: W.Plan)
    requires Enabled(true, s, Io(S.DispatchIo(plan)))
    ensures s.port.batch != [] && s.port.Done() < |s.port.History()| && s.port.History()[s.port.Done()] == s.port.batch[0]
  {
    TakesHead(s.port);
    hide S.Enabled;
  }

  lemma DoneIsWithin(s: Sys)
    ensures s.port.Done() <= |s.port.History()|
  {
  }

  lemma InvIsReady(log: seq<P.Packet>, done: nat, io: W.World, w: nat)
    requires S.Inv(true, log, done, io) && w in io.watchers
    ensures Ready(log, done, io, w)
  {
    assert S.Good(true, log, done, io, w);
  }

  /* ---------------- over whole runs ---------------- */

  lemma OtherMovesAreNotSeen(s: Sys, m: Move, w: nat)
    requires Enabled(true, s, m) && !m.Io? && w in s.io.watchers
    ensures var t := Apply(true, s, m);
            w in t.io.watchers && t.io.watchers[w].hasCallback == s.io.watchers[w].hasCallback && Seen(t, w) == Seen(s, w)
  {
    hide S.Enabled, S.Next, T.Enabled, T.Next, SeenIn;
    var log, done, t := s.port.History(), s.port.Done(), Apply(true, s, m);
    match m
    case EnterLoop(_) => ReadsAfter(log, done, s.io, t.io, [], 0, w);
    case Fetch(n) =>
      P.MoveKeepsOrder(s.port, P.Fetch(n));
      ReadsAfter(log, done, s.io, t.io, [], 0, w);
    case PostWake =>
      P.MoveKeepsOrder(s.port, P.Post(P.Wake));
      ReadsAfter(log, done, s.io, t.io, [P.Wake], 0, w);
    case SkipPacket =>
      TakesHead(s.port);
      ReadsAfter(log, done, s.io, t.io, [], 1, w);
    case Timer(step) =>
      if step.TakeTimer? {
        TimerIsNext(s);
        ReadsAfter(log, done, s.io, t.io, [], 1, w);
      } else {
        TimerPosts(s.port, s.timers, step);
        ReadsAfter(log, done, s.io, t.io, T.Next(log, done, s.timers, step).1, 0, w);
      }
  }

  lemma TimerIsNext(s: Sys)
    requires Enabled(true, s, Timer(T.TakeTimer))
    ensures s.port.Done() < |s.port.History()| && s.port.History()[s.port.Done()].TimerFired?
    ensures Apply(true, s, Timer(T.TakeTimer)).port.History() == s.port.History()
    ensures Apply(true, s, Timer(T.TakeTimer)).port.Done() == s.port.Done() + 1
  {
    TakesHead(s.port);
  }

  /** A move of the others: it posts these packets, or takes the next one, none of them an I/O completion. */
  lemma ReadsAfter(log: seq<P.Packet>, done: nat, io: W.World, t: W.World, posts: seq<P.Packet>, taken: nat, w: nat)
    requires w in io.watchers && t == io.(loopThread := t.loopThread) && done <= |log| && |posts| <= 1 && forall x <- posts :: !x.IoDone?
    requires taken == 0 || (taken == 1 && posts == [] && done < |log| && !log[done].IoDone?)
    ensures SeenIn(log + posts, done + taken, t, w) == SeenIn(log, done, io, w)
    ensures posts == [] ==> log + posts == log
  {
    PostsLeaveReads(log, done, io, posts, w);
    if taken == 1 {
      S.OtherPacketIsNoRead(log, done, io, w, log[done]);
    }
    assert posts == [] ==> log + posts == log;
    SameReads(log + posts, done + taken, io, t, w);
    SeenAlike(log, done, io, log + posts, done + taken, t, w);
  }

  lemma IoMoveFollows(s: Sys, step: S.Step, w: nat, c: Option<Outcome>)
    requires Inv(true, s) && Enabled(true, s, Io(step)) && w in s.io.watchers && w in Apply(true, s, Io(step)).io.watchers
    requires TakesRead(s, Io(step), w) ==> c.Some? && Holds(s.io, s.port.batch[0].overlapped.block, c.value) && |c.value.data| == s.port.batch[0].bytes
    ensures var t := Apply(true, s, Io(step));
            && t.io.watchers[w].hasCallback == s.io.watchers[w].hasCallback
            && Seen(t, w) == Then(Seen(s, w), s.io.watchers[w].hasCallback, s, Io(step), w, c)
  {
    hide Inv, S.Enabled, S.Next, SeenIn, Then, Holds;
    StepFollows(s, step, w, c);
    if step.DispatchIo? {
      TakesHead(s.port);
      DispatchAddsNothing(s, step);
    }
  }

  lemma DispatchAddsNothing(s: Sys, step: S.Step)
    requires S.Enabled(true, s.port.History(), s.port.Done(), s.io, step) && step.DispatchIo?
    ensures s.port.History() + S.Next(true, s.port.History(), s.port.Done(), s.io, step).1 == s.port.History()
  {
    assert s.port.History() + [] == s.port.History();
  }

  /** The backend implements the machine.  In every run by the rules, a watcher that was just created is
      active, with a read in flight if it asked for READ; and every move of anyone takes what its caller
      sees of it to exactly what the machine says.  So whether the next read has been asked of the kernel,
      and whether the platform_data has been freed, is never in doubt. */
  lemma ReadingFollows(run: seq<Sys>, moves: seq<Move>, n: nat, w: nat)
    requires IsRun(true, run, moves) && n < |moves| && w in run[n + 1].io.watchers
    ensures w in run[n].io.watchers ==>
              && run[n + 1].io.watchers[w].hasCallback == run[n].io.watchers[w].hasCallback
              && Seen(run[n + 1], w)
                 == Then(Seen(run[n], w), run[n].io.watchers[w].hasCallback, run[n], moves[n], w, Report(run, moves, n, run[n].port.Done()))
    ensures w !in run[n].io.watchers ==>
              && moves[n].Io? && moves[n].step.Create? && moves[n].step.w == w
              && run[n + 1].io.watchers[w].hasCallback == moves[n].step.hasCallback
              && Seen(run[n + 1], w) == View(true, if moves[n].step.read then InFlight else Idle)
  {
    hide Apply, Enabled, Inv, Seen, Then, Holds;
    var s, m := run[n], moves[n];
    RunIsSafe(true, run, moves, n);
    if w !in s.io.watchers {
      CreatedIsSeen(s, m, w);
    } else if m.Io? {
      if TakesRead(s, m, w) {
        HeadIsNext(s, m.step.plan);
        ReportIsHeld(run, moves, n, s.port.Done(), w);
      }
      IoMoveFollows(s, m.step, w, Report(run, moves, n, s.port.Done()));
    } else {
      OtherMovesAreNotSeen(s, m, w);
      assert Then(Seen(s, w), s.io.watchers[w].hasCallback, s, m, w, Report(run, moves, n, s.port.Done())) == Seen(s, w) by {
        OnlyIoIsSeen(Seen(s, w), s.io.watchers[w].hasCallback, s, m, w, Report(run, moves, n, s.port.Done()));
      }
    }
  }

  lemma OnlyIoIsSeen(v: View, hasCallback: bool, s: Sys, m: Move, w: nat, c: Option<Outcome>)
    requires !m.Io?
    ensures Then(v, hasCallback, s, m, w, c) == v
  {
  }

  lemma CreatedIsSeen(s: Sys, m: Move, w: nat)
    requires Inv(true, s) && Enabled(true, s, m) && w !in s.io.watchers && w in Apply(true, s, m).io.watchers
    ensures m.Io? && m.step.Create? && m.step.w == w
    ensures Apply(true, s, m).io.watchers[w].hasCallback == m.step.hasCallback
    ensures Seen(Apply(true, s, m), w) == View(true, if m.step.read then InFlight else Idle)
  {
    hide Inv, S.Enabled, S.Next, SeenIn, T.Enabled, T.Next;
    if m.Io? {
      CreatedIs(s, m.step, w);
    }
  }

  lemma CreatedIs(s: Sys, step: S.Step, w: nat)
    requires Inv(true, s) && S.Enabled(true, s.port.History(), s.port.Done(), s.io, step) && w !in s.io.watchers
    requires w in S.Next(true, s.port.History(), s.port.Done(), s.io, step).0.watchers
    ensures step.Create? && step.w == w
    ensures var (t, posts) := S.Next(true, s.port.History(), s.port.Done(), s.io, step);
            && posts == [] && t.watchers[w].hasCallback == step.hasCallback
            && SeenIn(s.port.History() + posts, s.port.Done(), t, w) == View(true, if step.read then InFlight else Idle)
  {
    var log, done := s.port.History(), s.port.Done();
    IoInv(s);
    assert log + [] == log;
    if step.Create? {
      NewcomerHasNoReads(log, done, s.io, step.w);
      RegisterIsSeen(log, done, s.io, step.w, step.b, step.hasCallback, step.read);
      S.RegisterShape(s.io, step.w, step.b, step.hasCallback, step.read);
      hide W.Register, SeenIn, Inv, S.Inv;
    } else {
      WatchersComeAndGo(log, done, s.io, step, w);
      OnlyCreateAdds(log, done, s.io, step, w);
    }
  }

  lemma OnlyCreateAdds(log: seq<P.Packet>, done: nat, io: W.World, step: S.Step, w: nat)
    requires S.Inv(true, log, done, io) && S.Enabled(true, log, done, io, step) && !step.Create? && w !in io.watchers
    ensures w !in S.Next(true, log, done, io, step).0.watchers
  {
    hide S.Good, S.NoWrites, S.MayStop, S.Unreferenced, W.Dispatch, W.KernelRead, W.Update, W.Stop;
    match step
    case DispatchIo(plan) => DispatchKeepsWatchers(log, done, io, plan);
    case CompleteRead(l, status, data) => S.KernelReadShape(io, l, status, data);
    case Change(_, _, _) => OperationKeepsWatchers(log, done, io, step);
    case Halt(_, _) => OperationKeepsWatchers(log, done, io, step);
    case _ =>
  }

  lemma NewcomerHasNoReads(log: seq<P.Packet>, done: nat, io: W.World, w: nat)
    requires S.Inv(true, log, done, io) && w !in io.watchers
    ensures S.NoReads(log, done, io, w)
  {
    hide S.Good;
  }

  lemma RegisterIsSeen(log: seq<P.Packet>, done: nat, io: W.World, w: nat, b: nat, hasCallback: bool, read: bool)
    requires w !in io.watchers && S.NoReads(log, done, io, w)
    ensures var t := W.Register(io, w, b, hasCallback, read);
            && w in t.watchers && t.watchers[w].hasCallback == hasCallback
            && SeenIn(log, done, t, w) == View(true, if read then InFlight else Idle)
  {
    var t := W.Register(io, w, b, hasCallback, read);
    if read {
      assert W.Lent(w, b) in t.lent;
    } else {
      SameReads(log, done, io, t, w);
    }
  }

  /** Move k lets w's reading go on: nobody stops w, and when the move dispatches a read of w, that read
      brought bytes, its callback returned, and the kernel took the next read. */
  predicate Flows(run: seq<Sys>, moves: seq<Move>, k: nat, w: nat)
    requires k < |moves| < |run|
  {
    var m := moves[k];
    m.Io? ==>
      && !(m.step.Halt? && m.step.w == w)
      && (m.step.DispatchIo? && run[k].port.batch != [] && S.Keyed(run[k].port.batch[0], w) ==> !m.step.plan.after.StopSelf?)
      && (TakesRead(run[k], m, w) ==>
            && m.step.plan.after.Return? && m.step.plan.reissued
            && var c := Report(run, moves, k, run[k].port.Done());
               c.Some? && EventFor(c.value) == Some(W.Read))
  }

  lemma ActiveStays(s: Sys, m: Move, w: nat)
    requires Inv(true, s) && Enabled(true, s, m) && w in s.io.watchers && s.io.watchers[w].active
    ensures w in Apply(true, s, m).io.watchers
  {
    IoInv(s);
    hide Inv, S.Inv, T.Enabled, T.Next;
    if m.Io? {
      ActiveStaysIn(s.port.History(), s.port.Done(), s.io, m.step, w);
      hide S.Enabled, S.Next;
    }
  }

  lemma ActiveStaysIn(log: seq<P.Packet>, done: nat, io: W.World, step: S.Step, w: nat)
    requires S.Inv(true, log, done, io) && S.Enabled(true, log, done, io, step) && w in io.watchers && io.watchers[w].active
    ensures w in S.Next(true, log, done, io, step).0.watchers
  {
    hide S.Good, S.NoWrites, S.MayStop, S.Unreferenced, W.Dispatch, W.KernelRead, W.Update, W.Stop;
    match step
    case DispatchIo(plan) => DispatchKeepsWatchers(log, done, io, plan);
    case CompleteRead(l, status, data) => S.KernelReadShape(io, l, status, data);
    case Change(_, _, _) => OperationKeepsWatchers(log, done, io, step);
    case Halt(_, _) => OperationKeepsWatchers(log, done, io, step);
    case Create(v, b, hasCallback, read) => NewWatcherIsEmpty(io, v, b, hasCallback, read);
    case _ =>
  }

  /** Reading never stalls.  Whatever all others do meanwhile, and whatever updates ask of it, a watcher with
      a read in flight has one in flight again after every READ callback, as long as nobody stops it, its
      reads bring bytes and the kernel takes the next ones. */
  lemma {:induction false} ReadingNeverStalls(run: seq<Sys>, moves: seq<Move>, i: nat, n: nat, w: nat)
    requires IsRun(true, run, moves) && i <= n < |run| && w in run[i].io.watchers && run[i].io.watchers[w].hasCallback
    requires Seen(run[i], w) == View(true, InFlight) && forall k :: i <= k < n ==> Flows(run, moves, k, w)
    ensures w in run[n].io.watchers && run[n].io.watchers[w].hasCallback && Seen(run[n], w) == View(true, InFlight)
    decreases n
  {
    hide Apply, Enabled, Inv;
    if i < n {
      ReadingNeverStalls(run, moves, i, n - 1, w);
      RunIsSafe(true, run, moves, n - 1);
      ActiveStays(run[n - 1], moves[n - 1], w);
      ReadingFollows(run, moves, n - 1, w);
      assert Flows(run, moves, n - 1, w);
    }
  }
}
