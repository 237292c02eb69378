/** iocp.c in its own form: the loop's event array and batch loop, the watcher operations that update
    platform_data step by step, and the in-place drain of the read buffer.  Each method is proved to
    take exactly the step the protocol model gives it. */
module IocpLoop {
  import P = IocpPort
  import T = IocpTimer
  import S = IocpSafety
  import I = Iocp
  import opened IocpWatcher
  import opened Options

  /** The read buffer of one pd_iocp_watcher_data_t. */
  class ReadBuffer {
    const buffer: array<byte>
    var bytesAvailable: nat

    constructor ()
      ensures Valid() && fresh(buffer) && bytesAvailable == 0
    {
      buffer := new byte[BUFFER_SIZE];
      bytesAvailable := 0;
    }

    /** The buffer of a block into which the kernel has read. */
    constructor Of(d: WatcherData)
      ensures Valid() && fresh(buffer) && buffer[..] == d.buffer && bytesAvailable == d.available
    {
      buffer := new byte[BUFFER_SIZE](i requires 0 <= i < BUFFER_SIZE => d.buffer[i]);
      bytesAvailable := d.available;
      new;
      assert buffer[..] == d.buffer;
    }

    ghost predicate Valid()
      reads this
    {
      buffer.Length == BUFFER_SIZE && bytesAvailable <= BUFFER_SIZE
    }

    /** The platform_data this buffer is part of, as far as draining looks at it. */
    ghost function Data(): WatcherData
      reads this, buffer
      requires Valid()
    {
      WatcherData(0, false, false, buffer[..], bytesAvailable, Success, false)
    }

    /** memmove(buffer, buffer + from, count) */
    method ShiftDown(from: nat, count: nat)
      requires from + count <= buffer.Length
      modifies buffer
      ensures buffer[..] == old(buffer[from..from + count]) + old(buffer[count..])
    {
      forall i | 0 <= i < count {
        buffer[i] := buffer[from + i];
      }
    }

    /** memcpy(buf, buffer, count) */
    method CopyOut(buf: array<byte>, count: nat)
      requires buf != buffer && count <= buf.Length && count <= buffer.Length
      modifies buf
      ensures buf[..count] == buffer[..count] && buf[count..] == old(buf[count..])
    {
      forall i | 0 <= i < count {
        buf[i] := buffer[i];
      }
    }

    /** iocp_watcher_drain_read: memcpy a prefix out, memmove the remainder to the front. */
    method DrainRead(buf: array<byte>, len: nat) returns (copied: nat)
      requires Valid() && buf != buffer && len <= buf.Length
      modifies this, buffer, buf
      ensures Valid() && copied <= buf.Length
      ensures (Data(), buf[..copied]) == DrainOnce(old(Data()), len)
      ensures buf[copied..] == old(buf[copied..])
    {
      ghost var all, had := buffer[..], bytesAvailable;
      if len == 0 || bytesAvailable == 0 {
        assert all == all[0..had] + all[had..];
        return 0;
      }
      copied := bytesAvailable;
      if copied > len {
        copied := len;
      }
      CopyOut(buf, copied);
      var rest := bytesAvailable - copied;
      if rest > 0 {
        ShiftDown(copied, rest);
      }
      bytesAvailable := rest;
      assert buf[..copied] == all[..copied];
      assert buffer[..] == all[copied..had] + all[rest..];
    }

    /** One drain call of a caller who has room for len bytes; d is the block that the buffer is in. */
    method Drained(len: nat, ghost d: WatcherData) returns (taken: seq<byte>)
      requires Valid()
      modifies this, buffer
      ensures Valid()
      ensures (d.(buffer := buffer[..], available := bytesAvailable), taken)
              == DrainOnce(d.(buffer := old(buffer[..]), available := old(bytesAvailable)), len)
    {
      var buf := new byte[len];
      DrainOnceAgrees(d.(buffer := buffer[..], available := bytesAvailable), Data(), len);
      hide DrainOnce;
      var copied := DrainRead(buf, len);
      taken := buf[..copied];
    }
  }

  /** Draining looks at a block's buffer and count only. */
  lemma DrainOnceAgrees(d: WatcherData, e: WatcherData, len: nat)
    requires d.buffer == e.buffer && d.available == e.available
    ensures var (d1, out) := DrainOnce(d, len);
            var (e1, copied) := DrainOnce(e, len);
            d1 == d.(buffer := e1.buffer, available := e1.available) && out == copied
  {
  }

  /** The three steps of dispatching a timer packet, when no other thread comes between. */
  function TimerDispatched(s: T.World, t: nat): T.World
    requires s.loopAt.Between?
  {
    var s1 := T.Take(s, t);
    if !s1.loopAt.Holding? then s1
    else
      var s2 := T.Look(s1);
      if s2.loopAt.Calling? then T.Call(s2) else s2
  }

  /* ---------------- the moves of a batch ---------------- */

  /** The moves that dispatch the head of the batch; plan is what the callback of an I/O completion does. */
  function EntryMoves(s: I.Sys, plan: Plan): seq<I.Move>
    requires s.port.batch != []
  {
    match s.port.batch[0]
    case IoDone(_, _, _) => [I.Io(S.DispatchIo(plan))]
    case TimerFired(t) =>
      if t !in s.timers.timers then [I.Timer(T.TakeTimer)]
      else if s.timers.timers[t].destroyed then [I.Timer(T.TakeTimer), I.Timer(T.LookAtFlag)]
      else [I.Timer(T.TakeTimer), I.Timer(T.LookAtFlag), I.Timer(T.CallBack)]
    case _ => [I.SkipPacket]
  }

  ghost predicate AllEnabled(strict: bool, s: I.Sys, moves: seq<I.Move>)
    decreases |moves|
  {
    moves == [] || (I.Enabled(strict, s, moves[0]) && AllEnabled(strict, I.Apply(strict, s, moves[0]), moves[1..]))
  }

  ghost function ApplyAll(strict: bool, s: I.Sys, moves: seq<I.Move>): I.Sys
    requires AllEnabled(strict, s, moves)
    decreases |moves|
  {
    if moves == [] then s else ApplyAll(strict, I.Apply(strict, s, moves[0]), moves[1..])
  }

  lemma {:induction false} AllKeepInv(strict: bool, s: I.Sys, moves: seq<I.Move>)
    requires I.Inv(strict, s) && AllEnabled(strict, s, moves)
    ensures I.Inv(strict, ApplyAll(strict, s, moves))
    decreases |moves|
  {
    hide I.Apply, I.Enabled, I.Inv;
    if moves != [] {
      I.MoveKeepsInv(strict, s, moves[0]);
      AllKeepInv(strict, I.Apply(strict, s, moves[0]), moves[1..]);
    }
  }

  lemma {:induction false} AllThenAll(strict: bool, s: I.Sys, moves: seq<I.Move>, more: seq<I.Move>)
    requires AllEnabled(strict, s, moves) && AllEnabled(strict, ApplyAll(strict, s, moves), more)
    ensures AllEnabled(strict, s, moves + more) && ApplyAll(strict, s, moves + more) == ApplyAll(strict, ApplyAll(strict, s, moves), more)
    decreases |moves|
  {
    hide I.Apply, I.Enabled;
    if moves == [] {
      assert moves + more == more;
    } else {
      AllThenAll(strict, I.Apply(strict, s, moves[0]), moves[1..], more);
      assert (moves + more)[1..] == moves[1..] + more;
    }
  }

  /** Each entry of the batch may be dispatched in its turn, with these plans for its callbacks. */
  ghost predicate BatchEnabled(strict: bool, s: I.Sys, plans: seq<Plan>)
    decreases |plans|
  {
    if plans == [] then s.port.batch == []
    else
      && s.port.batch != [] && AllEnabled(strict, s, EntryMoves(s, plans[0]))
      && BatchEnabled(strict, ApplyAll(strict, s, EntryMoves(s, plans[0])), plans[1..])
  }

  /** All the moves that dispatch the batch. */
  ghost function BatchMoves(strict: bool, s: I.Sys, plans: seq<Plan>): seq<I.Move>
    requires BatchEnabled(strict, s, plans)
    decreases |plans|
  {
    if plans == [] then []
    else EntryMoves(s, plans[0]) + BatchMoves(strict, ApplyAll(strict, s, EntryMoves(s, plans[0])), plans[1..])
  }

  lemma {:induction false} BatchIsEnabled(strict: bool, s: I.Sys, plans: seq<Plan>)
    requires BatchEnabled(strict, s, plans)
    ensures AllEnabled(strict, s, BatchMoves(strict, s, plans))
    decreases |plans|
  {
    if plans != [] {
      var t := ApplyAll(strict, s, EntryMoves(s, plans[0]));
      BatchIsEnabled(strict, t, plans[1..]);
      hide I.Apply, I.Enabled, EntryMoves, AllEnabled, ApplyAll;
      AllThenAll(strict, s, EntryMoves(s, plans[0]), BatchMoves(strict, t, plans[1..]));
    }
  }

  lemma One(strict: bool, s: I.Sys, m: I.Move)
    ensures AllEnabled(strict, s, [m]) <==> I.Enabled(strict, s, m)
    ensures I.Enabled(strict, s, m) ==> ApplyAll(strict, s, [m]) == I.Apply(strict, s, m)
  {
    hide I.Apply, I.Enabled;
    assert [m][1..] == [];
  }

  /** What dispatching the head of the batch does, by completion key. */
  lemma EntryIsDispatched(strict: bool, s: I.Sys, plan: Plan)
    requires s.port.batch != [] && AllEnabled(strict, s, EntryMoves(s, plan)) && s.timers.loopAt.Between?
    ensures s.port.batch[0].IoDone? && s.port.batch[0].overlapped.Embedded? ==> s.port.batch[0].bytes <= BUFFER_SIZE
    ensures var p := s.port.batch[0];
            ApplyAll(strict, s, EntryMoves(s, plan))
            == match p
               case IoDone(w, ov, bytes) => I.Sys(s.port.Apply(P.Take), Dispatch(s.io, w, ov, bytes, plan), s.timers)
               case TimerFired(t) => I.Sys(s.port.Apply(P.Take), s.io, TimerDispatched(s.timers, t))
               case _ => I.Sys(s.port.Apply(P.Take), s.io, s.timers)
  {
    I.TakesHead(s.port);
    match s.port.batch[0]
    case IoDone(_, _, _) =>
      hide Dispatch;
      One(strict, s, I.Io(S.DispatchIo(plan)));
    case TimerFired(t) => TimerEntryIsDispatched(strict, s, plan, t);
    case Wake => One(strict, s, I.SkipPacket);
    case Sync(_) => One(strict, s, I.SkipPacket);
  }

  lemma TimerEntryIsDispatched(strict: bool, s: I.Sys, plan: Plan, t: nat)
    requires s.port.batch != [] && s.port.batch[0] == P.TimerFired(t) && s.timers.loopAt.Between?
    requires AllEnabled(strict, s, EntryMoves(s, plan))
    ensures ApplyAll(strict, s, EntryMoves(s, plan)) == I.Sys(s.port.Apply(P.Take), s.io, TimerDispatched(s.timers, t))
  {
    I.TakesHead(s.port);
    var moves := EntryMoves(s, plan);
    var s1 := I.Apply(strict, s, moves[0]);
    assert s1 == I.Sys(s.port.Apply(P.Take), s.io, T.Take(s.timers, t));
    if |moves| == 1 {
      assert moves[1..] == [];
    } else {
      LooksAndCalls(strict, s1, moves[1..]);
    }
  }

  lemma LooksAndCalls(strict: bool, s1: I.Sys, moves: seq<I.Move>)
    requires AllEnabled(strict, s1, moves) && |moves| > 0 && s1.timers.loopAt.Holding? && s1.timers.loopAt.timer in s1.timers.timers
    requires moves == if s1.timers.timers[s1.timers.loopAt.timer].destroyed then [I.Timer(T.LookAtFlag)]
                      else [I.Timer(T.LookAtFlag), I.Timer(T.CallBack)]
    ensures var timers := T.Look(s1.timers);
            ApplyAll(strict, s1, moves) == I.Sys(s1.port, s1.io, if timers.loopAt.Calling? then T.Call(timers) else timers)
  {
    var s2 := I.Apply(strict, s1, moves[0]);
    TimerMove(strict, s1, T.LookAtFlag);
    if |moves| == 2 {
      assert moves[1..] == [I.Timer(T.CallBack)];
      One(strict, s2, I.Timer(T.CallBack));
      TimerMove(strict, s2, T.CallBack);
    } else {
      assert moves[1..] == [];
    }
  }

  lemma TimerMove(strict: bool, s: I.Sys, step: T.Step)
    requires step.LookAtFlag? || step.CallBack?
    requires I.Enabled(strict, s, I.Timer(step))
    ensures I.Apply(strict, s, I.Timer(step)) == I.Sys(s.port, s.io, if step.LookAtFlag? then T.Look(s.timers) else T.Call(s.timers))
  {
    assert s.port.queue + [] == s.port.queue;
  }

  /** The drain calls still to make, behind the bytes already drained. */
  function DrainedOn(d: WatcherData, out: seq<byte>, lens: seq<nat>): (WatcherData, seq<byte>)
  {
    (DrainMany(d, lens).0, out + DrainMany(d, lens).1)
  }

  lemma DrainsBegin(d: WatcherData, lens: seq<nat>)
    ensures DrainedOn(d, [], lens[0..]) == DrainMany(d, lens)
  {
    assert lens[0..] == lens;
    assert [] + DrainMany(d, lens).1 == DrainMany(d, lens).1;
  }

  lemma DrainsGoOn(d: WatcherData, out: seq<byte>, lens: seq<nat>, k: nat)
    requires k < |lens|
    ensures var (d1, taken) := DrainOnce(d, lens[k]); DrainedOn(d1, out + taken, lens[k + 1..]) == DrainedOn(d, out, lens[k..])
  {
    assert lens[k..][0] == lens[k] && lens[k..][1..] == lens[k + 1..];
    var (d1, taken) := DrainOnce(d, lens[k]);
    assert out + (taken + DrainMany(d1, lens[k + 1..]).1) == out + taken + DrainMany(d1, lens[k + 1..]).1;
  }

  lemma DrainsEnd(d: WatcherData, out: seq<byte>, lens: seq<nat>)
    ensures DrainedOn(d, out, lens[|lens|..]) == (d, out)
  {
    assert lens[|lens|..] == [] && out + [] == out;
  }

  class Loop {
    const events: array<P.Packet>
    var numEntries: nat
    var next: nat
    var queue: seq<P.Packet>
    ghost var dispatched: seq<P.Packet>

    var heap: map<nat, WatcherData>
    var freed: set<nat>
    var watchers: map<nat, Watcher>
    var gone: set<nat>
    var lent: multiset<Lent>
    var writing: multiset<nat>
    var calls: seq<Call>
    var loopThread: nat
    var loopFault: bool
    var kernelFault: bool

    var timers: map<nat, T.Timer>
    var timersGone: set<nat>
    var queued: set<nat>
    var posting: multiset<nat>
    var loopAt: T.LoopAt
    var fired: seq<nat>
    var timerFault: bool

    constructor (maxEvents: nat)
      requires maxEvents > 0
      ensures Valid() && fresh(events) && events.Length == maxEvents
      ensures Sys() == I.START
    {
      events := new P.Packet[maxEvents](_ => P.Wake);
      numEntries, next, queue, dispatched := 0, 0, [], [];
      heap, freed, watchers, gone, lent, writing, calls := map[], {}, map[], {}, multiset{}, multiset{}, [];
      loopThread, loopFault, kernelFault := 0, false, false;
      timers, timersGone, queued, posting, loopAt, fired, timerFault := map[], {}, {}, multiset{}, T.Between, [], false;
    }

    ghost predicate Valid()
      reads this
    {
      next <= numEntries <= events.Length && events.Length > 0
    }

    ghost function Port(): P.Port
      reads this, events
      requires Valid()
    {
      P.Port(dispatched, events[next..numEntries], queue)
    }

    function Io(): World
      reads this
    {
      World(heap, freed, watchers, gone, lent, writing, calls, loopThread, loopFault, kernelFault)
    }

    function Timers(): T.World
      reads this
    {
      T.World(timers, timersGone, queued, posting, loopThread, loopAt, None, fired, timerFault)
    }

    /** The port, the watchers and the timers together. */
    ghost function Sys(): I.Sys
      reads this, events
      requires Valid()
    {
      I.Sys(Port(), Io(), Timers())
    }

    /** PostQueuedCompletionStatus */
    method Post(p: P.Packet)
      requires Valid()
      modifies `queue
      ensures Valid() && Port() == old(Port()).Apply(P.Post(p))
    {
      queue := queue + [p];
    }

    /** GetQueuedCompletionStatusEx: move up to events.Length packets into the event array. */
    method GetQueued() returns (n: nat)
      requires Valid() && next == numEntries && queue != []
      modifies `numEntries, `next, `queue, events
      ensures Valid() && n == Min(events.Length, old(|queue|))
      ensures Port().dispatched == old(Port().dispatched) && Port().batch == old(queue[..n]) && Port().queue == old(queue[n..])
      ensures next == 0 && numEntries == n && events[..n] == old(queue[..n])
      ensures dispatched == old(dispatched) && queue == old(queue[n..])
      ensures n > 0 && old(Port()).Enabled(P.Fetch(n)) && Port() == old(Port()).Apply(P.Fetch(n))
    {
      n := if events.Length <= |queue| then events.Length else |queue|;
      for k := 0 to n
        invariant queue == old(queue) && forall i :: 0 <= i < k ==> events[i] == queue[i]
      {
        events[k] := queue[k];
      }
      assert events[..n] == queue[..n];
      numEntries, next, queue := n, 0, queue[n..];
    }

    /** free(watcher_data); watcher->platform_data = NULL */
    method FreeData(w: nat, b: nat)
      requires w in watchers
      modifies `heap, `freed, `watchers, `loopFault
      ensures Io() == Free(old(Io()), w, b)
    {
      if b !in heap {
        loopFault := true;
        return;
      }
      heap := heap - {b};
      freed := freed + {b};
      watchers := watchers[w := watchers[w].(data := None)];
    }

    method WatcherUnregister(w: nat) returns (how: Unregistered)
      requires w in watchers
      modifies `heap, `freed, `watchers, `loopFault
      ensures w in watchers && (Io(), how) == Unregister(old(Io()), w)
    {
      if watchers[w].data.None? {
        return Refused;
      }
      var b := watchers[w].data.value;
      if b !in heap {
        loopFault := true;
        return Released;
      }
      if heap[b].stopping {
        return Already;
      }
      if !heap[b].pending {
        FreeData(w, b);
        return Released;
      }
      heap := heap[b := heap[b].(stopping := true)];
      return Deferred;
    }

    /** pd_watcher_stop: clear active, unregister, and restore active when the backend refuses. */
    method WatcherStop(w: nat, thread: nat)
      requires w in watchers
      modifies `heap, `freed, `watchers, `loopFault
      ensures w in watchers && Io() == Stop(old(Io()), w, thread)
    {
      if !watchers[w].active {
        return;
      }
      var how := WatcherUnregister(w);
      if how == Refused {
        return;
      }
      var phase := Stopped;
      if how == Deferred && loopThread != 0 && thread != loopThread {
        phase := MustDrain(thread);
      }
      watchers := watchers[w := watchers[w].(active := false, phase := phase)];
    }

    /** Zero the OVERLAPPED, publish the intent, issue the read; retract the intent only if told to. */
    method ArmRead(w: nat, b: nat, issued: bool, retract: bool)
      requires b in heap
      modifies `heap, `lent
      ensures Io() == Arm(old(Io()), w, b, issued, retract)
    {
      heap := heap[b := heap[b].(internal := Success, pending := true, armFailed := false)];
      if issued {
        lent := lent + multiset{Lent(w, b)};
      } else if retract {
        heap := heap[b := heap[b].(pending := false)];
      } else {
        heap := heap[b := heap[b].(armFailed := true)];
      }
    }

    method WatcherUpdate(w: nat, read: bool, issued: bool)
      requires w in watchers
      modifies `heap, `lent, `loopFault
      ensures Io() == Update(old(Io()), w, read, issued)
    {
      if !watchers[w].active || watchers[w].data.None? {
        return;
      }
      var b := watchers[w].data.value;
      if b !in heap {
        loopFault := true;
      } else if read && !heap[b].pending {
        ArmRead(w, b, issued, false);
      }
    }

    /** The second unregister of pd_watcher_destroy, and the end of the struct. */
    method WatcherRelease(w: nat)
      requires w in watchers
      modifies `heap, `freed, `watchers, `gone, `loopFault
      ensures Io() == Release(old(Io()), w)
    {
      var _ := WatcherUnregister(w);
      watchers := watchers - {w};
      gone := gone + {w};
    }

    /** The user callback, as far as it acts on its own watcher. */
    method CallBack(w: nat, after: After)
      requires w in watchers
      modifies `heap, `freed, `watchers, `gone, `lent, `loopFault
      ensures Io() == RunAfter(old(Io()), w, after)
    {
      match after
      case Return =>
      case StopSelf => WatcherStop(w, loopThread);
      case UpdateSelf(read, issued) => WatcherUpdate(w, read, issued);
      case DestroySelf =>
        WatcherStop(w, loopThread);
        WatcherRelease(w);
    }

    /** One I/O completion, in the order of the branches of iocp_loop_run. */
    method DispatchIo(w: nat, ov: P.Overlapped, bytes: nat, plan: Plan)
      requires ov.Embedded? ==> bytes <= BUFFER_SIZE
      modifies `heap, `freed, `watchers, `gone, `lent, `calls, `loopFault
      ensures Io() == Dispatch(old(Io()), w, ov, bytes, plan)
    {
      hide RunAfter, Consume, Rearm, Arm, DrainMany, Free;
      if w !in watchers {
        loopFault := true;
        return;
      }
      if !watchers[w].hasCallback || watchers[w].data.None? {
        return;
      }
      var b := watchers[w].data.value;
      if b !in heap {
        loopFault := true;
        return;
      }
      if heap[b].stopping {
        FreeData(w, b);
        return;
      }
      if ov != P.Embedded(b) {
        calls := calls + [Call(w, Write)];
        CallBack(w, plan.after);
        return;
      }
      if heap[b].internal == Cancelled {
        heap := heap[b := heap[b].(pending := false)];
        return;
      }
      CompleteRead(w, b, bytes, plan.lens);
      var event := calls[|calls| - 1].event;
      CallBack(w, plan.after);
      RearmRead(w, event, plan.reissued);
    }

    /** Classify a read completion by status and byte count, stash its bytes, clear pending. */
    method Classify(b: nat, bytes: Length) returns (event: Event)
      requires b in heap
      modifies `heap
      ensures event == EventOf(old(heap[b]), bytes)
      ensures heap == old(heap)[b := old(heap[b]).(pending := false, available := if event.Read? then bytes else old(heap[b]).available)]
    {
      event := NoEvent;
      if heap[b].pending {
        if heap[b].internal == Success {
          if bytes > 0 {
            event := Read;
            heap := heap[b := heap[b].(available := bytes)];
          } else {
            event := Hangup;
          }
        } else {
          event := Error;
        }
      }
      heap := heap[b := heap[b].(pending := false)];
    }

    /** A read completion up to the end of the callback's drain calls. */
    method CompleteRead(w: nat, b: nat, bytes: Length, lens: seq<nat>)
      requires w in watchers && b in heap
      modifies `heap, `watchers, `calls
      ensures w in watchers && Io() == Consume(old(Io()), w, b, bytes, lens)
      ensures calls == old(calls) + [Call(w, EventOf(old(heap[b]), bytes))]
    {
      var event := Classify(b, bytes);
      calls := calls + [Call(w, event)];
      if event == Read {
        DrainInCallback(w, b, lens);
      }
    }

    /** The re-arm after the callback, on a freshly read platform_data. */
    method RearmRead(w: nat, event: Event, issued: bool)
      modifies `heap, `lent, `loopFault
      ensures Io() == Rearm(old(Io()), w, event, issued)
    {
      if w !in watchers {
        loopFault := true;
        return;
      }
      if watchers[w].data.Some? && event == Read {
        var c := watchers[w].data.value;
        if c !in heap {
          loopFault := true;
        } else if !heap[c].stopping {
          ArmRead(w, c, issued, true);
        }
      }
    }

    /** The drain calls a READ callback makes. */
    method DrainInCallback(w: nat, b: nat, lens: seq<nat>)
      requires w in watchers && b in heap
      modifies `heap, `watchers
      ensures var x, d := old(watchers[w]), old(heap[b]);
              var (d1, out) := DrainMany(d, lens);
              && heap == old(heap)[b := d1]
              && watchers == old(watchers)[w := x.(drained := x.drained + out, undispatched := [],
                                                   thorough := x.thorough && d1.available == 0)]
    {
      hide DrainOnce, DrainMany;
      var d := heap[b];
      var buffer := new ReadBuffer.Of(d);
      var out: seq<byte> := [];
      ghost var all := DrainMany(d, lens);
      DrainsBegin(d, lens);
      for k := 0 to |lens|
        invariant buffer.Valid() && fresh(buffer) && fresh(buffer.buffer)
        invariant heap == old(heap) && watchers == old(watchers)
        invariant DrainedOn(d.(buffer := buffer.buffer[..], available := buffer.bytesAvailable), out, lens[k..]) == all
      {
        DrainsGoOn(d.(buffer := buffer.buffer[..], available := buffer.bytesAvailable), out, lens, k);
        var taken := buffer.Drained(lens[k], d);
        out := out + taken;
      }
      DrainsEnd(d.(buffer := buffer.buffer[..], available := buffer.bytesAvailable), out, lens);
      var x := watchers[w];
      heap := heap[b := d.(buffer := buffer.buffer[..], available := buffer.bytesAvailable)];
      watchers := watchers[w := x.(drained := x.drained + out, undispatched := [], thorough := x.thorough && buffer.bytesAvailable == 0)];
    }

    /** The PD_IOCP_TIMER_KEY branch. */
    method DispatchTimer(t: nat)
      requires loopAt.Between?
      modifies `loopAt, `fired, `timerFault
      ensures loopAt.Between? && Timers() == TimerDispatched(old(Timers()), t)
    {
      if t !in timers {
        timerFault := true;
        return;
      }
      if timers[t].destroyed {
        return;
      }
      fired := fired + [t];
    }

    /** One round of the dispatch loop, on the entry at `next`. */
    method DispatchEntry(ghost strict: bool, plan: Plan)
      requires Valid() && next < numEntries && loopAt.Between? && AllEnabled(strict, Sys(), EntryMoves(Sys(), plan))
      modifies this
      ensures Valid() && next == old(next) + 1 && numEntries == old(numEntries) && queue == old(queue) && loopAt.Between?
      ensures Sys() == ApplyAll(strict, old(Sys()), EntryMoves(old(Sys()), plan))
    {
      hide AllEnabled, ApplyAll, EntryMoves, Dispatch;
      ghost var s := Sys();
      EntryIsDispatched(strict, s, plan);
      var entry := events[next];
      TakeEntry();
      DispatchByKey(entry, plan);
    }

    /** The completion key selects the branch. */
    method DispatchByKey(entry: P.Packet, plan: Plan)
      requires Valid() && loopAt.Between? && (entry.IoDone? && entry.overlapped.Embedded? ==> entry.bytes <= BUFFER_SIZE)
      modifies `heap, `freed, `watchers, `gone, `lent, `calls, `loopFault, `loopAt, `fired, `timerFault
      ensures Valid() && loopAt.Between? && Port() == old(Port())
      ensures (Io(), Timers()) == match entry
                                  case IoDone(w, ov, bytes) => (Dispatch(old(Io()), w, ov, bytes, plan), old(Timers()))
                                  case TimerFired(t) => (old(Io()), TimerDispatched(old(Timers()), t))
                                  case _ => (old(Io()), old(Timers()))
    {
      hide Dispatch, TimerDispatched;
      match entry
      case Wake =>
      case Sync(_) =>
      case TimerFired(t) => DispatchTimer(t);
      case IoDone(w, ov, bytes) => DispatchIo(w, ov, bytes, plan);
    }

    /** The entry at `next` counts as dispatched from here on. */
    method TakeEntry()
      requires Valid() && next < numEntries
      modifies `dispatched, `next
      ensures Valid() && next == old(next) + 1 && old(Port()).batch != [] && events[old(next)] == old(Port()).batch[0]
      ensures Port() == old(Port()).Apply(P.Take)
    {
      assert Port().batch[1..] == events[next + 1..numEntries];
      dispatched := dispatched + [events[next]];
      next := next + 1;
    }

    /** The dispatch loop of iocp_loop_run over the fetched batch: the moves of the protocol that dispatch
        every entry, in order. */
    method DispatchBatch(ghost strict: bool, plans: seq<Plan>)
      requires Valid() && |plans| == numEntries - next && loopAt.Between? && BatchEnabled(strict, Sys(), plans)
      modifies this
      ensures Valid() && next == numEntries == old(numEntries) && queue == old(queue) && loopAt.Between?
      ensures AllEnabled(strict, old(Sys()), BatchMoves(strict, old(Sys()), plans))
      ensures Sys() == ApplyAll(strict, old(Sys()), BatchMoves(strict, old(Sys()), plans))
    {
      hide AllEnabled, ApplyAll, EntryMoves, BatchEnabled, BatchMoves;
      ghost var s, made: seq<I.Move> := Sys(), [];
      NothingMade(strict, s);
      ghost var all := BatchMoves(strict, s, plans);
      assert plans[0..] == plans && [] + all == all;
      for k := 0 to |plans|
        invariant Valid() && next == old(next) + k && numEntries == old(numEntries) && queue == old(queue) && loopAt.Between?
        invariant BatchEnabled(strict, Sys(), plans[k..]) && AllEnabled(strict, s, made) && ApplyAll(strict, s, made) == Sys()
        invariant made + BatchMoves(strict, Sys(), plans[k..]) == all
      {
        ghost var now := Sys();
        BatchHead(strict, now, plans, k);
        AllThenAll(strict, s, made, EntryMoves(now, plans[k]));
        DispatchEntry(strict, plans[k]);
        made := made + EntryMoves(now, plans[k]);
      }
      BatchIsDone(strict, Sys(), plans[|plans|..]);
      assert made == all;
    }

    /** iocp_loop_run: record the loop thread, wait for a batch and dispatch all of it.  When the plans of
        the callbacks are allowed, this is one run of moves of the protocol: the loop enters, fetches as
        much as fits, and dispatches every packet; and so it keeps the protocol's invariant. */
    method Run(ghost strict: bool, thread: nat, plans: seq<Plan>) returns (n: nat, ghost moves: seq<I.Move>)
      requires Valid() && next == numEntries && queue != [] && loopAt.Between? && I.Inv(strict, Sys())
      requires thread > 0 && (loopThread == 0 || loopThread == thread) && |plans| == Min(events.Length, |queue|)
      requires BatchEnabled(strict, Fetched(Sys(), thread, |plans|), plans)
      modifies this, events
      ensures Valid() && next == numEntries && n == Min(events.Length, |old(queue)|) && queue == old(queue)[n..] && loopAt.Between?
      ensures moves == [I.EnterLoop(thread), I.Fetch(n)] + BatchMoves(strict, Fetched(old(Sys()), thread, n), plans)
      ensures AllEnabled(strict, old(Sys()), moves) && Sys() == ApplyAll(strict, old(Sys()), moves)
      ensures I.Inv(strict, Sys())
    {
      hide AllEnabled, ApplyAll, BatchEnabled, BatchMoves, I.Inv, I.Apply, Fetched;
      ghost var s := Sys();
      n := Receive(thread);
      FetchedIsReached(strict, s, thread, n);
      DispatchBatch(strict, plans);
      moves := [I.EnterLoop(thread), I.Fetch(n)] + BatchMoves(strict, Fetched(s, thread, n), plans);
      AllThenAll(strict, s, [I.EnterLoop(thread), I.Fetch(n)], BatchMoves(strict, Fetched(s, thread, n), plans));
      AllKeepInv(strict, s, moves);
    }

    /** The head of iocp_loop_run, up to the batch. */
    method Receive(thread: nat) returns (n: nat)
      requires Valid() && next == numEntries && queue != []
      modifies `loopThread, `numEntries, `next, `queue, events
      ensures Valid() && next == 0 && numEntries == n == Min(events.Length, |old(queue)|) && queue == old(queue)[n..]
      ensures old(Sys()).port.Enabled(P.Fetch(n)) && Sys() == Fetched(old(Sys()), thread, n)
    {
      loopThread := thread;
      n := GetQueued();
    }
  }

  /** The state in which the loop thread has entered and fetched n packets. */
  function Fetched(s: I.Sys, thread: nat, n: nat): I.Sys
    requires s.port.Enabled(P.Fetch(n))
  {
    s.(io := s.io.(loopThread := thread), timers := s.timers.(loopThread := thread), port := s.port.Apply(P.Fetch(n)))
  }

  lemma FetchedIsReached(strict: bool, s: I.Sys, thread: nat, n: nat)
    requires I.Enabled(strict, s, I.EnterLoop(thread)) && s.port.Enabled(P.Fetch(n))
    ensures AllEnabled(strict, s, [I.EnterLoop(thread), I.Fetch(n)])
    ensures ApplyAll(strict, s, [I.EnterLoop(thread), I.Fetch(n)]) == Fetched(s, thread, n)
  {
    var s1 := I.Apply(strict, s, I.EnterLoop(thread));
    assert [I.EnterLoop(thread), I.Fetch(n)][1..] == [I.Fetch(n)];
    One(strict, s1, I.Fetch(n));
  }

  lemma NothingMade(strict: bool, s: I.Sys)
    ensures AllEnabled(strict, s, []) && ApplyAll(strict, s, []) == s
  {
  }

  lemma BatchIsDone(strict: bool, s: I.Sys, plans: seq<Plan>)
    requires plans == [] && BatchEnabled(strict, s, plans)
    ensures BatchMoves(strict, s, plans) == []
  {
  }

  lemma BatchHead(strict: bool, s: I.Sys, plans: seq<Plan>, k: nat)
    requires k < |plans| && BatchEnabled(strict, s, plans[k..])
    ensures s.port.batch != [] && AllEnabled(strict, s, EntryMoves(s, plans[k]))
    ensures var t := ApplyAll(strict, s, EntryMoves(s, plans[k]));
            && BatchEnabled(strict, t, plans[k + 1..])
            && BatchMoves(strict, s, plans[k..]) == EntryMoves(s, plans[k]) + BatchMoves(strict, t, plans[k + 1..])
  {
    assert plans[k..][0] == plans[k] && plans[k..][1..] == plans[k + 1..];
  }
}
