/** Steps of the IOCP watcher protocol, and what every reachable state satisfies.

    The steps are those of the loop thread (dispatching one packet, atomically), of application
    threads and of the kernel, in any interleaving.  `strict` adds what the source asks of callers:
    no caller-issued write is outstanding when a watcher is stopped, and a READ callback does not
    update its own watcher.  The assumptions on the kernel and on the caller that are not in the code
    are the guards in `Enabled`. */
module IocpSafety {
  import opened IocpPort
  import opened IocpWatcher
  import opened Options

  datatype Step =
    | Create(w: nat, b: nat, hasCallback: bool, read: bool)
    | Change(w: nat, read: bool, issued: bool)
    | Halt(w: nat, thread: nat)
    | PostSync(w: nat)
    | SyncSeen(w: nat)
    | SyncTimedOut(w: nat)
    | Destroy(w: nat)
    | BeginWrite(w: nat)
    | KernelWrite(w: nat, id: nat, bytes: nat)
    | CompleteRead(l: Lent, status: Status, data: seq<byte>)
    | DispatchIo(plan: Plan)

  predicate Keyed(p: Packet, w: nat) { p.IoDone? && p.watcher == w }
  predicate IsRead(p: Packet, w: nat) { Keyed(p, w) && p.overlapped.Embedded? }
  predicate IsWrite(p: Packet, w: nat) { Keyed(p, w) && p.overlapped.Callers? }

  ghost predicate NoWrites(log: seq<Packet>, done: nat, s: World, w: nat)
  {
    w !in s.writing && forall i :: done <= i < |log| ==> !IsWrite(log[i], w)
  }

  ghost predicate NoReads(log: seq<Packet>, done: nat, s: World, w: nat)
  {
    (forall b :: Lent(w, b) !in s.lent) && forall i :: done <= i < |log| ==> !IsRead(log[i], w)
  }

  /** At most one caller's write is outstanding. */
  ghost predicate OneWrite(log: seq<Packet>, done: nat, s: World, w: nat)
  {
    && s.writing[w] <= 1
    && (w in s.writing ==> forall i :: done <= i < |log| ==> !IsWrite(log[i], w))
    && forall i, j :: done <= i < j < |log| ==> !(IsWrite(log[i], w) && IsWrite(log[j], w))
  }

  /** The pending flag is set, but no completion of a read will free the block when the watcher is stopped:
      the re-issue of its read had failed, or dispatch drops its completions for want of a callback. */
  predicate Undying(s: World, w: nat)
  {
    && w in s.watchers && s.watchers[w].data.Some?
    && var b := s.watchers[w].data.value;
       b in s.heap && s.heap[b].pending && (s.heap[b].armFailed || !s.watchers[w].hasCallback)
  }

  predicate OffLoop(s: World, thread: nat) { s.loopThread != 0 && thread != s.loopThread }

  /** The rule for stopping a watcher: no write of the caller's own is outstanding; or the block is one
      that no read's completion frees, at most one write is outstanding, which frees it instead (any
      number if there is no callback, when nothing does), and if a drain will be made, the kernel holds
      none of these writes any more. */
  ghost predicate MayStop(log: seq<Packet>, done: nat, s: World, w: nat, thread: nat)
    requires w in s.watchers
  {
    || NoWrites(log, done, s, w)
    || !s.watchers[w].active
    || (Undying(s, w) && (s.watchers[w].hasCallback ==> OneWrite(log, done, s, w)) && (OffLoop(s, thread) ==> w !in s.writing))
  }

  /** Nothing in the kernel, the batch or the queue refers to this watcher any more. */
  ghost predicate Unreferenced(log: seq<Packet>, done: nat, s: World, w: nat)
  {
    NoReads(log, done, s, w) && NoWrites(log, done, s, w)
  }

  /** The completion reaches the callback as a READ event. */
  predicate RaisesRead(s: World, p: Packet)
  {
    && p.IoDone? && p.watcher in s.watchers
    && s.watchers[p.watcher].data.Some?
    && var b := s.watchers[p.watcher].data.value;
       b in s.heap && p.overlapped == Embedded(b) && EventOf(s.heap[b], p.bytes).Read?
  }

  ghost predicate Enabled(strict: bool, log: seq<Packet>, done: nat, s: World, step: Step)
  {
    match step
    case Create(w, b, _, _) => w !in s.watchers && w !in s.gone && b !in s.heap && b !in s.freed
    case Change(w, _, _) => w in s.watchers
    case Halt(w, thread) => w in s.watchers && thread > 0 && (strict ==> MayStop(log, done, s, w, thread))
    case PostSync(w) => w in s.watchers && s.watchers[w].phase.MustDrain? && forall b :: Lent(w, b) !in s.lent
    case SyncSeen(w) => w in s.watchers && s.watchers[w].phase.Draining? && s.watchers[w].phase.ticket < done
    case SyncTimedOut(w) => w in s.watchers && (s.watchers[w].phase.Draining? || s.watchers[w].phase.MustDrain?)
    case Destroy(w) =>
      && w in s.watchers && !s.watchers[w].active
      && !s.watchers[w].phase.MustDrain? && !s.watchers[w].phase.Draining?
      && ((strict && (s.watchers[w].phase.Drained? || s.watchers[w].data.None?)) || Unreferenced(log, done, s, w))
    case BeginWrite(w) => w in s.watchers && (strict ==> s.watchers[w].active)
    case KernelWrite(w, _, bytes) => w in s.writing
    case CompleteRead(l, _, data) => l in s.lent && |data| <= BUFFER_SIZE
    case DispatchIo(plan) =>
      && done < |log| && log[done].IoDone?
      && (log[done].overlapped.Embedded? ==> log[done].bytes <= BUFFER_SIZE)
      && !plan.after.DestroySelf?
      && (strict && plan.after.StopSelf? ==> NoWrites(log, done + 1, s, log[done].watcher))
      && (strict && plan.after == UpdateSelf(true, true) ==> !RaisesRead(s, log[done]))
  }

  /** The world after a step, and the packets it posts. */
  ghost function Next(strict: bool, log: seq<Packet>, done: nat, s: World, step: Step): (World, seq<Packet>)
    requires Enabled(strict, log, done, s, step)
  {
    match step
    case Create(w, b, hasCallback, read) => (Register(s, w, b, hasCallback, read), [])
    case Change(w, read, issued) => (Update(s, w, read, issued), [])
    case Halt(w, thread) => (Stop(s, w, thread), [])
    case PostSync(w) =>
      var x := s.watchers[w];
      (SetWatcher(s, w, x.(phase := Draining(|log|, x.phase.thread))), [Sync(|log|)])
    case SyncSeen(w) => (SetWatcher(s, w, s.watchers[w].(phase := Drained)), [])
    case SyncTimedOut(w) => (SetWatcher(s, w, s.watchers[w].(phase := GaveUp)), [])
    case Destroy(w) => (Release(s, w), [])
    case BeginWrite(w) => (s.(writing := s.writing + multiset{w}), [])
    case KernelWrite(w, id, bytes) => (s.(writing := s.writing - multiset{w}), [IoDone(w, Callers(id), bytes)])
    case CompleteRead(l, status, data) =>
      (KernelRead(s, l, status, data), [IoDone(l.watcher, Embedded(l.block), |data|)])
    case DispatchIo(plan) =>
      var p := log[done];
      (Dispatch(s, p.watcher, p.overlapped, p.bytes, plan), [])
  }

  /* ---------------- invariants ---------------- */

  /** A published platform_data is live and its owner's, an active watcher has one that is not being
      torn down, and a thread that waits for a drain is not the loop thread. */
  predicate Sound(s: World, w: nat)
    requires w in s.watchers
  {
    var x := s.watchers[w];
    && (x.data.Some? ==> x.data.value in s.heap && s.heap[x.data.value].owner == w)
    && (x.active <==> x.phase.Running?)
    && (x.active <==> x.data.Some? && !s.heap[x.data.value].stopping)
    && (x.data.Some? && s.heap[x.data.value].stopping ==> s.heap[x.data.value].pending)
    && (x.phase.MustDrain? || x.phase.Draining? ==> s.loopThread != 0 && x.phase.thread != s.loopThread)
  }

  /** Whatever still refers to a watcher refers to a live struct, and the loop and the application
      never touched dead memory. */
  ghost predicate Anchored(log: seq<Packet>, done: nat, s: World)
  {
    && !s.loopFault && s.heap.Keys !! s.freed && s.watchers.Keys !! s.gone && done <= |log|
    && (forall l <- s.lent :: l.watcher in s.watchers)
    && (forall w <- s.writing :: w in s.watchers)
    && (forall i :: done <= i < |log| && log[i].IoDone? ==>
          log[i].watcher in s.watchers && (log[i].overlapped.Embedded? ==> log[i].bytes <= BUFFER_SIZE))
    && (forall i :: 0 <= i < |log| && log[i].IoDone? ==> log[i].watcher in s.watchers || log[i].watcher in s.gone)
  }

  predicate OwnsRead(s: World, w: nat, b: nat)
    requires w in s.watchers
  {
    s.watchers[w].data == Some(b) && b in s.heap && s.heap[b].pending && !s.heap[b].armFailed
  }

  /** Read-buffer safety: a read that the kernel holds, or whose completion is not dispatched yet, is
      in the live platform_data of its watcher, marked pending, and is that watcher's only one. */
  ghost predicate Lending(log: seq<Packet>, done: nat, s: World, w: nat)
    requires w in s.watchers
  {
    && (forall b :: Lent(w, b) in s.lent ==> OwnsRead(s, w, b) && s.lent[Lent(w, b)] == 1)
    && (forall i :: done <= i < |log| && IsRead(log[i], w) ==>
          OwnsRead(s, w, log[i].overlapped.block) && Lent(w, log[i].overlapped.block) !in s.lent)
    && (forall i, j :: done <= i < j < |log| ==> !(IsRead(log[i], w) && IsRead(log[j], w)))
  }

  /** The caller's writes that may be outstanding on a stopped watcher. */
  ghost predicate LateWrites(log: seq<Packet>, done: nat, s: World, w: nat)
    requires w in s.watchers
  {
    && Undying(s, w) && (s.watchers[w].hasCallback ==> OneWrite(log, done, s, w))
    && (s.watchers[w].phase.Stopped? || w !in s.writing)
  }

  /** A stopped watcher has no caller's write outstanding, or only harmless ones; once the sync record of
      its drain is posted, nothing keyed by the watcher is posted behind it; and once that is consumed
      nothing refers to the watcher. */
  ghost predicate Retiring(log: seq<Packet>, done: nat, s: World, w: nat)
    requires w in s.watchers
  {
    && (!s.watchers[w].active ==> NoWrites(log, done, s, w) || LateWrites(log, done, s, w))
    && match s.watchers[w].phase
       case Draining(t, _) =>
         && t < |log| && (forall b :: Lent(w, b) !in s.lent)
         && forall i :: done <= i < |log| && Keyed(log[i], w) ==> i < t
       case Drained => Unreferenced(log, done, s, w)
       case _ => true
  }

  /** The pending flag is truthful, unless a re-issue failed or a NULL callback discards completions. */
  ghost predicate Truthful(log: seq<Packet>, done: nat, s: World, w: nat)
    requires w in s.watchers && Sound(s, w)
  {
    var x := s.watchers[w];
    x.data.Some? && x.hasCallback && s.heap[x.data.value].pending && !s.heap[x.data.value].armFailed ==>
      !NoReads(log, done, s, w)
  }

  /** Stream integrity: what was drained, followed by what is completed but not dispatched, is what
      the kernel delivered; and the kernel never holds a buffer with undrained bytes. */
  ghost predicate Streaming(log: seq<Packet>, done: nat, s: World, w: nat)
    requires w in s.watchers && Sound(s, w)
  {
    var x := s.watchers[w];
    x.thorough ==>
      && x.delivered == x.drained + x.undispatched
      && (x.data.Some? ==>
            var d := s.heap[x.data.value];
            && d.available == 0
            && (Lent(w, x.data.value) in s.lent || !d.pending || d.armFailed ==> x.undispatched == [])
            && (forall i :: done <= i < |log| && IsRead(log[i], w) && log[i].bytes <= BUFFER_SIZE ==>
                  x.undispatched == if d.internal.Success? then d.buffer[..log[i].bytes] else []))
  }

  /** A watcher has one block in its life: whatever read was ever issued for it lies in that block. */
  ghost predicate Homed(log: seq<Packet>, s: World, w: nat)
    requires w in s.watchers
  {
    s.watchers[w].data.Some? ==>
      && (forall b :: Lent(w, b) in s.lent ==> b == s.watchers[w].data.value)
      && (forall i :: 0 <= i < |log| && IsRead(log[i], w) ==> log[i].overlapped.block == s.watchers[w].data.value)
  }

  /** Without a callback nothing clears the pending flag, so such a watcher has at most one read in its
      life, and has had that read if the flag is set and no re-issue failed. */
  ghost predicate Mute(log: seq<Packet>, s: World, w: nat)
    requires w in s.watchers && Sound(s, w)
  {
    var x := s.watchers[w];
    !x.hasCallback ==>
      && Lending(log, 0, s, w)
      && (x.data.Some? && s.heap[x.data.value].pending && !s.heap[x.data.value].armFailed ==> !NoReads(log, 0, s, w))
  }

  ghost predicate Good(strict: bool, log: seq<Packet>, done: nat, s: World, w: nat)
    requires w in s.watchers
  {
    && Sound(s, w) && Homed(log, s, w)
    && (strict ==> Lending(log, done, s, w) && Retiring(log, done, s, w)
                   && Truthful(log, done, s, w) && Streaming(log, done, s, w) && Mute(log, s, w))
  }

  ghost predicate Inv(strict: bool, log: seq<Packet>, done: nat, s: World)
  {
    && Anchored(log, done, s)
    && (strict ==> !s.kernelFault)
    && forall w <- s.watchers :: Good(strict, log, done, s, w)
  }

  /* ---------------- frames ---------------- */

  /** The two worlds agree on everything the invariant of watcher w mentions. */
  ghost predicate Same(s: World, t: World, w: nat)
  {
    && w in s.watchers && w in t.watchers && s.watchers[w] == t.watchers[w] && s.loopThread == t.loopThread
    && (s.watchers[w].data.Some? ==>
          var b := s.watchers[w].data.value;
          (b in s.heap <==> b in t.heap) && (b in s.heap ==> s.heap[b] == t.heap[b]))
    && (forall b :: s.lent[Lent(w, b)] == t.lent[Lent(w, b)])
    && s.writing[w] == t.writing[w]
  }

  lemma SameKeepsGood(strict: bool, log: seq<Packet>, done: nat, s: World, t: World, w: nat)
    requires Same(s, t, w) && Good(strict, log, done, s, w)
    ensures Good(strict, log, done, t, w)
  {
  }

  lemma OtherPacketIsNoRead(log: seq<Packet>, done: nat, s: World, w: nat, x: Packet)
    requires !IsRead(x, w)
    ensures done <= |log| ==> (NoReads(log + [x], done, s, w) <==> NoReads(log, done, s, w))
    ensures done < |log| && log[done] == x ==> (NoReads(log, done + 1, s, w) <==> NoReads(log, done, s, w))
  {
    if done <= |log| && !NoReads(log, done, s, w) && forall b :: Lent(w, b) !in s.lent {
      var i :| done <= i < |log| && IsRead(log[i], w);
      assert (log + [x])[i] == log[i];
    }
  }

  lemma OtherPostKeepsMute(log: seq<Packet>, s: World, w: nat, x: Packet)
    requires w in s.watchers && !IsRead(x, w) && Sound(s, w) && Homed(log, s, w)
    ensures Homed(log + [x], s, w)
    ensures Mute(log, s, w) ==> Mute(log + [x], s, w)
  {
    OtherPacketIsNoRead(log, 0, s, w, x);
    hide NoReads;
  }

  lemma OtherPostKeepsGood(strict: bool, log: seq<Packet>, done: nat, s: World, w: nat, x: Packet)
    requires w in s.watchers && !Keyed(x, w) && done <= |log| && Good(strict, log, done, s, w)
    ensures Good(strict, log + [x], done, s, w)
  {
    OtherPacketIsNoRead(log, done, s, w, x);
    OtherPostKeepsMute(log, s, w, x);
    hide Homed, Mute;
  }

  lemma OtherTakeKeepsGood(strict: bool, log: seq<Packet>, done: nat, s: World, w: nat)
    requires w in s.watchers && done < |log| && !Keyed(log[done], w) && Good(strict, log, done, s, w)
    ensures Good(strict, log, done + 1, s, w)
  {
    OtherPacketIsNoRead(log, done, s, w, log[done]);
    hide Homed, Mute;
  }

  /** Appending a packet that is not keyed by the watcher, or dispatching one, keeps its invariant. */
  lemma OtherPacketKeepsGood(strict: bool, log: seq<Packet>, done: nat, s: World, w: nat, x: Packet)
    requires w in s.watchers && !Keyed(x, w) && done <= |log| && Good(strict, log, done, s, w)
    ensures Good(strict, log + [x], done, s, w)
    ensures done < |log| && log[done] == x ==> Good(strict, log, done + 1, s, w)
  {
    OtherPostKeepsGood(strict, log, done, s, w, x);
    if done < |log| && log[done] == x {
      OtherTakeKeepsGood(strict, log, done, s, w);
    }
  }

  /* ---------------- operations ---------------- */

  /** A stop of an active watcher releases its block at once, or leaves it to the read in flight. */
  lemma StopSelf(s: World, w: nat, thread: nat)
    requires w in s.watchers && Sound(s, w)
    ensures var x, t := s.watchers[w], Stop(s, w, thread);
            && w in t.watchers && t.lent == s.lent && t.writing == s.writing && t.loopThread == s.loopThread
            && (!x.active ==> t == s)
            && (x.active && !s.heap[x.data.value].pending ==>
                  t.heap == s.heap - {x.data.value} && t.watchers[w] == x.(active := false, data := None, phase := Stopped))
            && (x.active && s.heap[x.data.value].pending ==>
                  && t.heap == s.heap[x.data.value := s.heap[x.data.value].(stopping := true)]
                  && t.watchers[w] == x.(active := false, phase := t.watchers[w].phase)
                  && (t.watchers[w].phase == Stopped
                      || (t.watchers[w].phase == MustDrain(thread) && s.loopThread != 0 && thread != s.loopThread)))
  {
  }

  lemma StopKeepsGood(strict: bool, log: seq<Packet>, done: nat, s: World, w: nat, thread: nat)
    requires w in s.watchers && Good(strict, log, done, s, w) && (strict ==> MayStop(log, done, s, w, thread))
    ensures Good(strict, log, done, Stop(s, w, thread), w)
  {
    StopSelf(s, w, thread);
    hide Stop;
  }

  lemma UpdateKeepsGood(strict: bool, log: seq<Packet>, done: nat, s: World, w: nat, read: bool, issued: bool)
    requires w in s.watchers && Good(strict, log, done, s, w)
    ensures Good(strict, log, done, Update(s, w, read, issued), w)
  {
  }

  lemma RearmKeepsGood(strict: bool, log: seq<Packet>, done: nat, s: World, w: nat, e: Event, issued: bool)
    requires w in s.watchers && Good(strict, log, done, s, w)
    requires strict && e.Read? && s.watchers[w].data.Some? ==> !s.heap[s.watchers[w].data.value].pending || s.heap[s.watchers[w].data.value].armFailed
    ensures Good(strict, log, done, Rearm(s, w, e, issued), w)
  {
  }

  lemma SoundAfterConsume(s: World, w: nat, b: nat, n: Length, lens: seq<nat>)
    requires w in s.watchers && Sound(s, w) && s.watchers[w].data == Some(b) && !s.heap[b].stopping
    ensures Sound(Consume(s, w, b, n, lens), w)
  {
  }

  /** What Consume changes: it idles the block, and if thorough it hands over every byte completed. */
  lemma ConsumeEffect(s: World, w: nat, b: nat, n: Length, lens: seq<nat>)
    requires w in s.watchers && Sound(s, w) && s.watchers[w].data == Some(b)
    requires EventOf(s.heap[b], n).Read? || s.watchers[w].undispatched == []
    requires EventOf(s.heap[b], n).Read? ==> s.watchers[w].undispatched == s.heap[b].buffer[..n]
    requires s.heap[b].available == 0
    requires s.watchers[w].delivered == s.watchers[w].drained + s.watchers[w].undispatched
    ensures var t := Consume(s, w, b, n, lens);
            && b in t.heap && w in t.watchers
            && (t.watchers[w].thorough ==>
                  && t.heap[b].available == 0 && t.watchers[w].undispatched == []
                  && t.watchers[w].delivered == t.watchers[w].drained)
  {
    DrainReturnsPrefix(s.heap[b].(available := n, pending := false), lens);
  }

  lemma ThoroughOnly(s: World, w: nat, b: nat, n: Length, lens: seq<nat>)
    requires w in s.watchers && b in s.heap && s.watchers[w].data == Some(b)
    ensures var t := Consume(s, w, b, n, lens);
            && b in t.heap && w in t.watchers && !t.heap[b].pending
            && t.watchers[w].data == Some(b)
            && (t.watchers[w].thorough ==> s.watchers[w].thorough)
            && t.lent == s.lent && t.writing == s.writing
            && t.watchers[w].phase == s.watchers[w].phase && t.watchers[w].active == s.watchers[w].active
  {
  }

  /** The completion being dispatched is its watcher's only outstanding read. */
  lemma TakenIsLast(log: seq<Packet>, done: nat, s: World, w: nat)
    requires w in s.watchers && Lending(log, done, s, w) && done < |log| && IsRead(log[done], w)
    ensures NoReads(log, done + 1, s, w)
  {
    assert OwnsRead(s, w, log[done].overlapped.block);
    assert forall b: nat :: Lent(w, b) in s.lent ==> s.watchers[w].data == Some(b);
  }

  lemma ConsumeKeepsGood(strict: bool, log: seq<Packet>, done: nat, s: World, w: nat, b: nat, lens: seq<nat>)
    requires w in s.watchers && Good(strict, log, done, s, w) && s.watchers[w].hasCallback
    requires done < |log| && IsRead(log[done], w) && log[done].overlapped == Embedded(b) && log[done].bytes <= BUFFER_SIZE
    requires s.watchers[w].data == Some(b) && !s.heap[b].stopping && !s.heap[b].internal.Cancelled?
    ensures Good(strict, log, done + 1, Consume(s, w, b, log[done].bytes, lens), w)
  {
    var n := log[done].bytes;
    var t := Consume(s, w, b, n, lens);
    SoundAfterConsume(s, w, b, n, lens);
    ThoroughOnly(s, w, b, n, lens);
    if strict {
      TakenIsLast(log, done, s, w);
      assert NoReads(log, done + 1, t, w);
      if s.watchers[w].thorough {
        ConsumeEffect(s, w, b, n, lens);
      }
      assert t.watchers[w].delivered == t.watchers[w].drained + t.watchers[w].undispatched <== t.watchers[w].thorough;
    }
  }

  /** Taking a completion that dispatch drops: of a watcher without callback or platform_data, of a
      cancelled read, or the final one of a watcher being torn down. */
  lemma DropKeepsGood(strict: bool, log: seq<Packet>, done: nat, s: World, w: nat, plan: Plan)
    requires w in s.watchers && Good(strict, log, done, s, w)
    requires done < |log| && Keyed(log[done], w)
    requires log[done].overlapped.Embedded? ==> log[done].bytes <= BUFFER_SIZE
    requires var x := s.watchers[w];
             || !x.hasCallback || x.data.None? || s.heap[x.data.value].stopping
             || (log[done].overlapped == Embedded(x.data.value) && s.heap[x.data.value].internal.Cancelled?)
    ensures Good(strict, log, done + 1, Dispatch(s, w, log[done].overlapped, log[done].bytes, plan), w)
  {
  }

  lemma WriteKeepsGood(strict: bool, log: seq<Packet>, done: nat, s: World, w: nat)
    requires w in s.watchers && Good(strict, log, done, s, w)
    requires done < |log| && Keyed(log[done], w) && s.watchers[w].data.Some?
    requires log[done].overlapped != Embedded(s.watchers[w].data.value)
    ensures Good(strict, log, done + 1, Called(s, w, Write), w)
  {
    if strict && !NoReads(log, done, s, w) && forall b :: Lent(w, b) !in s.lent {
      var i :| done <= i < |log| && IsRead(log[i], w);
      assert i != done;
    }
  }

  lemma AfterKeepsGood(strict: bool, log: seq<Packet>, done: nat, s: World, w: nat, after: After)
    requires w in s.watchers && Good(strict, log, done, s, w) && !after.DestroySelf?
    requires strict && after.StopSelf? ==> NoWrites(log, done, s, w)
    ensures w in RunAfter(s, w, after).watchers
    ensures Good(strict, log, done, RunAfter(s, w, after), w)
  {
    match after
    case Return =>
    case StopSelf => StopKeepsGood(strict, log, done, s, w, s.loopThread);
    case UpdateSelf(read, issued) => UpdateKeepsGood(strict, log, done, s, w, read, issued);
  }

  /** After a READ callback whose update, if it made one, issued no read, none is outstanding. */
  lemma AfterLeavesIdle(s: World, w: nat, b: nat, after: After)
    requires w in s.watchers && s.watchers[w].data == Some(b) && b in s.heap
    requires !s.heap[b].pending && !s.heap[b].stopping && after != UpdateSelf(true, true) && !after.DestroySelf?
    ensures var t := RunAfter(s, w, after);
            && w in t.watchers
            && (t.watchers[w].data.Some? ==>
                  var c := t.watchers[w].data.value;
                  c in t.heap && (!t.heap[c].pending || t.heap[c].armFailed))
  {
  }

  lemma ReadKeepsGood(strict: bool, log: seq<Packet>, done: nat, s: World, w: nat, b: nat, plan: Plan)
    requires w in s.watchers && Good(strict, log, done, s, w) && s.watchers[w].data == Some(b) && s.watchers[w].hasCallback
    requires done < |log| && IsRead(log[done], w) && log[done].overlapped == Embedded(b) && log[done].bytes <= BUFFER_SIZE
    requires !s.heap[b].stopping && !s.heap[b].internal.Cancelled? && !plan.after.DestroySelf?
    requires strict && plan.after.StopSelf? ==> NoWrites(log, done + 1, s, w)
    requires strict && plan.after == UpdateSelf(true, true) ==> !EventOf(s.heap[b], log[done].bytes).Read?
    ensures var t := RunAfter(Consume(s, w, b, log[done].bytes, plan.lens), w, plan.after);
            && w in t.watchers
            && Good(strict, log, done + 1, Rearm(t, w, EventOf(s.heap[b], log[done].bytes), plan.reissued), w)
  {
    var n := log[done].bytes;
    var s1 := Consume(s, w, b, n, plan.lens);
    ThoroughOnly(s, w, b, n, plan.lens);
    SoundAfterConsume(s, w, b, n, plan.lens);
    hide Truthful, Streaming, Lending, Retiring, Consume, RunAfter, Rearm;
    ConsumeKeepsGood(strict, log, done, s, w, b, plan.lens);
    AfterKeepsGood(strict, log, done + 1, s1, w, plan.after);
    if plan.after != UpdateSelf(true, true) {
      AfterLeavesIdle(s1, w, b, plan.after);
    }
    RearmKeepsGood(strict, log, done + 1, RunAfter(s1, w, plan.after), w, EventOf(s.heap[b], n), plan.reissued);
  }

  lemma DispatchKeepsGood(strict: bool, log: seq<Packet>, done: nat, s: World, plan: Plan)
    requires Enabled(strict, log, done, s, DispatchIo(plan)) && Anchored(log, done, s)
    requires log[done].watcher in s.watchers && Good(strict, log, done, s, log[done].watcher)
    ensures var p := log[done];
            var t := Dispatch(s, p.watcher, p.overlapped, p.bytes, plan);
            p.watcher in t.watchers && Good(strict, log, done + 1, t, p.watcher)
  {
    var p := log[done];
    var w := p.watcher;
    var x := s.watchers[w];
    assert Sound(s, w);
    hide Good, RunAfter, Consume, Rearm, Called, Free;
    if !x.hasCallback || x.data.None? || s.heap[x.data.value].stopping
       || (p.overlapped == Embedded(x.data.value) && s.heap[x.data.value].internal.Cancelled?) {
      DropKeepsGood(strict, log, done, s, w, plan);
    } else if p.overlapped == Embedded(x.data.value) {
      ReadKeepsGood(strict, log, done, s, w, x.data.value, plan);
    } else {
      WriteKeepsGood(strict, log, done, s, w);
      AfterKeepsGood(strict, log, done + 1, Called(s, w, Write), w, plan.after);
    }
  }

  /* ---------------- locality ---------------- */

  /** No other watcher has this watcher's platform_data. */
  ghost predicate Apart(s: World, w: nat)
  {
    forall v <- s.watchers :: v != w && w in s.watchers && s.watchers[v].data.Some? ==> s.watchers[v].data != s.watchers[w].data
  }

  /** An operation of watcher w leaves every other watcher's memory alone, and breaks nothing shared. */
  ghost predicate Local(s: World, t: World, w: nat)
  {
    && w in s.watchers && t.watchers.Keys == s.watchers.Keys && t.gone == s.gone && t.loopThread == s.loopThread
    && Apart(t, w) && (forall v <- s.watchers :: v != w ==> Same(s, t, v))
    && t.loopFault == s.loopFault && t.kernelFault == s.kernelFault
    && (s.heap.Keys !! s.freed ==> t.heap.Keys !! t.freed) && s.freed <= t.freed
    && (forall l <- t.lent :: l in s.lent || l.watcher == w)
    && (forall v <- t.writing :: v in s.writing)
  }

  lemma LocalTrans(s: World, t: World, u: World, w: nat)
    requires Local(s, t, w) && Local(t, u, w)
    ensures Local(s, u, w)
  {
  }

  lemma StopIsLocal(s: World, w: nat, thread: nat)
    requires w in s.watchers && Apart(s, w) && Sound(s, w)
    ensures Local(s, Stop(s, w, thread), w)
  {
  }

  lemma UpdateIsLocal(s: World, w: nat, read: bool, issued: bool)
    requires w in s.watchers && Apart(s, w) && Sound(s, w)
    ensures Local(s, Update(s, w, read, issued), w)
  {
  }

  lemma AfterIsLocal(s: World, w: nat, after: After)
    requires w in s.watchers && Apart(s, w) && Sound(s, w) && !after.DestroySelf?
    ensures Local(s, RunAfter(s, w, after), w)
  {
    match after
    case Return =>
    case StopSelf => StopIsLocal(s, w, s.loopThread);
    case UpdateSelf(read, issued) => UpdateIsLocal(s, w, read, issued);
  }

  lemma ConsumeIsLocal(s: World, w: nat, b: nat, n: Length, lens: seq<nat>)
    requires w in s.watchers && Apart(s, w) && Sound(s, w) && s.watchers[w].data == Some(b)
    ensures Local(s, Consume(s, w, b, n, lens), w)
  {
    hide DrainMany, EventOf;
  }

  lemma RearmIsLocal(s: World, w: nat, e: Event, issued: bool)
    requires w in s.watchers && Apart(s, w) && Sound(s, w)
    ensures Local(s, Rearm(s, w, e, issued), w)
  {
  }

  lemma ReadIsLocal(s: World, w: nat, b: nat, n: Length, plan: Plan, e: Event)
    requires w in s.watchers && Sound(s, w) && Apart(s, w) && s.watchers[w].data == Some(b) && !s.heap[b].stopping && !plan.after.DestroySelf?
    ensures var t := RunAfter(Consume(s, w, b, n, plan.lens), w, plan.after);
            w in t.watchers && Local(s, Rearm(t, w, e, plan.reissued), w)
  {
    var s1 := Consume(s, w, b, n, plan.lens);
    var s2 := RunAfter(s1, w, plan.after);
    ConsumeIsLocal(s, w, b, n, plan.lens);
    SoundAfterConsume(s, w, b, n, plan.lens);
    AfterIsLocal(s1, w, plan.after);
    SoundAfter(s1, w, plan.after);
    LocalTrans(s, s1, s2, w);
    RearmIsLocal(s2, w, e, plan.reissued);
    LocalTrans(s, s2, Rearm(s2, w, e, plan.reissued), w);
  }

  lemma WriteIsLocal(s: World, w: nat, after: After)
    requires w in s.watchers && Sound(s, w) && Apart(s, w) && !after.DestroySelf?
    ensures Local(s, RunAfter(Called(s, w, Write), w, after), w)
  {
    AfterIsLocal(Called(s, w, Write), w, after);
    LocalTrans(s, Called(s, w, Write), RunAfter(Called(s, w, Write), w, after), w);
  }

  lemma SmallIsLocal(s: World, w: nat, b: nat)
    requires w in s.watchers && Sound(s, w) && Apart(s, w) && s.watchers[w].data == Some(b)
    ensures Local(s, Free(s, w, b), w)
    ensures Local(s, SetBlock(s, b, s.heap[b].(pending := false)), w)
  {
  }

  lemma DispatchIsLocal(s: World, w: nat, ov: Overlapped, bytes: nat, plan: Plan)
    requires w in s.watchers && (ov.Embedded? ==> bytes <= BUFFER_SIZE) && !plan.after.DestroySelf?
    requires Sound(s, w) && Apart(s, w)
    ensures Local(s, Dispatch(s, w, ov, bytes, plan), w)
  {
    var x := s.watchers[w];
    if x.hasCallback && x.data.Some? {
      var b := x.data.value;
      SmallIsLocal(s, w, b);
      if s.heap[b].stopping {
      } else if ov != Embedded(b) {
        WriteIsLocal(s, w, plan.after);
      } else if !s.heap[b].internal.Cancelled? {
        ReadIsLocal(s, w, b, bytes, plan, EventOf(s.heap[b], bytes));
      }
    }
  }

  lemma SoundAfter(s: World, w: nat, after: After)
    requires w in s.watchers && Sound(s, w) && !after.DestroySelf?
    ensures w in RunAfter(s, w, after).watchers && Sound(RunAfter(s, w, after), w)
  {
  }

  /* ---------------- every step keeps the invariant ---------------- */

  /** A packet of watcher w is posted (x) or taken (the one at `done`); the others do not notice. */
  lemma OthersKeepGood(strict: bool, log: seq<Packet>, done: nat, s: World, w: nat, x: Packet)
    requires Inv(strict, log, done, s) && (x.IoDone? ==> x.watcher == w)
    ensures forall v <- s.watchers :: v != w ==> Good(strict, log + [x], done, s, v)
    ensures done < |log| && log[done] == x ==> forall v <- s.watchers :: v != w ==> Good(strict, log, done + 1, s, v)
  {
    forall v <- s.watchers | v != w
      ensures Good(strict, log + [x], done, s, v)
      ensures done < |log| && log[done] == x ==> Good(strict, log, done + 1, s, v)
    {
      OtherPacketKeepsGood(strict, log, done, s, v, x);
    }
  }

  lemma LocalKeepsInv(strict: bool, log: seq<Packet>, done: nat, s: World, t: World, w: nat)
    requires Anchored(log, done, s) && (strict ==> !s.kernelFault)
    requires forall v <- s.watchers :: v != w ==> Good(strict, log, done, s, v)
    requires Local(s, t, w) && Good(strict, log, done, t, w)
    ensures Inv(strict, log, done, t)
  {
    forall v <- t.watchers ensures Good(strict, log, done, t, v) {
      if v != w {
        SameKeepsGood(strict, log, done, s, t, v);
      }
    }
  }

  lemma InvIsApart(strict: bool, log: seq<Packet>, done: nat, s: World, w: nat)
    requires Inv(strict, log, done, s) && w in s.watchers
    ensures Apart(s, w)
  {
    assert Good(strict, log, done, s, w);
    forall v <- s.watchers | v != w && s.watchers[v].data.Some?
      ensures s.watchers[v].data != s.watchers[w].data
    {
      assert Good(strict, log, done, s, v);
    }
  }

  /** A packet that is no I/O completion is posted or dispatched. */
  lemma ForeignPacketKeepsInv(strict: bool, log: seq<Packet>, done: nat, s: World, x: Packet)
    requires Inv(strict, log, done, s) && !x.IoDone?
    ensures Inv(strict, log + [x], done, s)
    ensures done < |log| && log[done] == x ==> Inv(strict, log, done + 1, s)
  {
    forall v <- s.watchers
      ensures Good(strict, log + [x], done, s, v)
      ensures done < |log| && log[done] == x ==> Good(strict, log, done + 1, s, v)
    {
      OtherPacketKeepsGood(strict, log, done, s, v, x);
    }
  }

  lemma DispatchKeepsInv(strict: bool, log: seq<Packet>, done: nat, s: World, plan: Plan)
    requires Inv(strict, log, done, s) && Enabled(strict, log, done, s, DispatchIo(plan))
    ensures var p := log[done]; Inv(strict, log, done + 1, Dispatch(s, p.watcher, p.overlapped, p.bytes, plan))
  {
    var p := log[done];
    InvIsApart(strict, log, done, s, p.watcher);
    OthersKeepGood(strict, log, done, s, p.watcher, p);
    DispatchKeepsGood(strict, log, done, s, plan);
    DispatchIsLocal(s, p.watcher, p.overlapped, p.bytes, plan);
    LocalKeepsInv(strict, log, done + 1, s, Dispatch(s, p.watcher, p.overlapped, p.bytes, plan), p.watcher);
  }

  lemma CreatedIsGood(strict: bool, log: seq<Packet>, done: nat, s: World, w: nat, b: nat, hasCallback: bool, read: bool)
    requires (forall i :: 0 <= i < |log| ==> !Keyed(log[i], w)) && (forall c :: Lent(w, c) !in s.lent) && w !in s.writing
    ensures w in Register(s, w, b, hasCallback, read).watchers
    ensures Good(strict, log, done, Register(s, w, b, hasCallback, read), w)
  {
  }

  lemma RegisterShape(s: World, w: nat, b: nat, hasCallback: bool, read: bool)
    ensures var t := Register(s, w, b, hasCallback, read);
            && t == s.(heap := t.heap, watchers := t.watchers, lent := t.lent)
            && b in t.heap && t.heap == s.heap[b := t.heap[b]] && w in t.watchers && t.watchers == s.watchers[w := t.watchers[w]]
            && t.lent == if read then s.lent + multiset{Lent(w, b)} else s.lent
  {
  }

  lemma CreateIsApart(strict: bool, log: seq<Packet>, done: nat, s: World, w: nat, b: nat, hasCallback: bool, read: bool)
    requires Inv(strict, log, done, s) && Enabled(strict, log, done, s, Create(w, b, hasCallback, read))
    ensures var t := Register(s, w, b, hasCallback, read);
            && Anchored(log, done, t) && t.kernelFault == s.kernelFault && t.watchers.Keys == s.watchers.Keys + {w}
            && forall v <- s.watchers :: Same(s, t, v)
  {
    CreateIsAnchored(log, done, s, w, b, hasCallback, read);
    hide Anchored, Register;
    forall v <- s.watchers ensures Same(s, Register(s, w, b, hasCallback, read), v) {
      assert Good(strict, log, done, s, v);
      hide Good;
      RegisterIsApart(s, w, b, hasCallback, read, v);
    }
  }

  lemma CreateIsAnchored(log: seq<Packet>, done: nat, s: World, w: nat, b: nat, hasCallback: bool, read: bool)
    requires Anchored(log, done, s) && w !in s.watchers && w !in s.gone && b !in s.heap && b !in s.freed
    ensures var t := Register(s, w, b, hasCallback, read);
            Anchored(log, done, t) && t.kernelFault == s.kernelFault && t.watchers.Keys == s.watchers.Keys + {w}
  {
    RegisterShape(s, w, b, hasCallback, read);
    hide Register;
  }

  lemma RegisterIsApart(s: World, w: nat, b: nat, hasCallback: bool, read: bool, v: nat)
    requires v in s.watchers && Sound(s, v) && w !in s.watchers && b !in s.heap
    ensures Same(s, Register(s, w, b, hasCallback, read), v)
  {
    RegisterShape(s, w, b, hasCallback, read);
    hide Register;
  }

  lemma CreateKeepsInv(strict: bool, log: seq<Packet>, done: nat, s: World, w: nat, b: nat, hasCallback: bool, read: bool)
    requires Inv(strict, log, done, s) && Enabled(strict, log, done, s, Create(w, b, hasCallback, read))
    ensures Inv(strict, log, done, Register(s, w, b, hasCallback, read))
  {
    var t := Register(s, w, b, hasCallback, read);
    CreatedIsGood(strict, log, done, s, w, b, hasCallback, read);
    CreateIsApart(strict, log, done, s, w, b, hasCallback, read);
    forall v <- t.watchers ensures Good(strict, log, done, t, v) {
      if v != w {
        SameKeepsGood(strict, log, done, s, t, v);
      }
    }
  }

  /** Destroying a stopped watcher takes its struct and nothing else: the second unregister finds no
      platform_data, or one that waits for its completion. */
  lemma ReleaseEffect(s: World, w: nat)
    requires w in s.watchers && Sound(s, w) && !s.watchers[w].active
    ensures Release(s, w) == s.(watchers := s.watchers - {w}, gone := s.gone + {w})
  {
  }

  /** A pd_watcher_t is freed only when nothing refers to it: after a consumed drain, and after a stop
      that released platform_data at once, that is a consequence and not a demand on the caller. */
  lemma DestroyIsSafe(strict: bool, log: seq<Packet>, done: nat, s: World, w: nat)
    requires Inv(strict, log, done, s) && Enabled(strict, log, done, s, Destroy(w))
    ensures Unreferenced(log, done, s, w)
    ensures Inv(strict, log, done, Release(s, w))
  {
    DestroyedIsUnreferenced(strict, log, done, s, w);
    var t := Release(s, w);
    forall v <- t.watchers ensures Good(strict, log, done, t, v) {
      ReleaseIsApart(strict, log, done, s, w, v);
      hide Same, Good, Release;
      SameKeepsGood(strict, log, done, s, t, v);
    }
  }

  lemma DestroyedIsUnreferenced(strict: bool, log: seq<Packet>, done: nat, s: World, w: nat)
    requires Inv(strict, log, done, s) && Enabled(strict, log, done, s, Destroy(w))
    ensures Unreferenced(log, done, s, w)
    ensures var t := Release(s, w);
            Anchored(log, done, t) && t.kernelFault == s.kernelFault && t.watchers.Keys == s.watchers.Keys - {w}
  {
    assert Good(strict, log, done, s, w);
    hide Truthful, Streaming, Lending;
  }

  lemma ReleaseIsApart(strict: bool, log: seq<Packet>, done: nat, s: World, w: nat, v: nat)
    requires Inv(strict, log, done, s) && Enabled(strict, log, done, s, Destroy(w)) && v in s.watchers && v != w
    ensures Same(s, Release(s, w), v) && Good(strict, log, done, s, v)
  {
    assert Good(strict, log, done, s, v);
    assert Good(strict, log, done, s, w);
    hide Truthful, Streaming, Lending, Retiring;
  }

  lemma ReleaseNeedsUnreferenced(log: seq<Packet>, done: nat, s: World, w: nat)
    requires Inv(true, log, done, s) && w in s.watchers && !s.watchers[w].active
    requires !s.watchers[w].phase.MustDrain? && !s.watchers[w].phase.Draining?
    ensures Inv(true, log, done, Release(s, w)) <==> Unreferenced(log, done, s, w)
  {
    if Unreferenced(log, done, s, w) {
      DestroyIsSafe(true, log, done, s, w);
    }
    var t := Release(s, w);
    if Inv(true, log, done, t) {
      assert t.lent == s.lent && t.writing == s.writing && w !in t.watchers;
      forall i | done <= i < |log| ensures !Keyed(log[i], w) {
        assert log[i].IoDone? ==> log[i].watcher in t.watchers;
      }
    }
  }

  /** The platform_data is gone; or it is kept because the re-issue of a read had failed, so that no
      completion will come for it; or its watcher has no callback, and the loop has already dropped the
      completion of the only read that the watcher ever had. */
  ghost predicate ReadIsOver(log: seq<Packet>, done: nat, s: World, w: nat)
    requires w in s.watchers && Sound(s, w) && done <= |log|
  {
    var x := s.watchers[w];
    x.data.Some? ==>
      s.heap[x.data.value].armFailed || (!x.hasCallback && exists i :: 0 <= i < done && IsRead(log[i], w))
  }

  lemma StoppedIsUnreferencedIff(log: seq<Packet>, done: nat, s: World, w: nat)
    requires w in s.watchers && Good(true, log, done, s, w) && !s.watchers[w].active && done <= |log|
    ensures Unreferenced(log, done, s, w) <==> ReadIsOver(log, done, s, w) && NoWrites(log, done, s, w)
  {
    var x := s.watchers[w];
    hide Streaming;
    if x.data.Some? && !s.heap[x.data.value].armFailed && !x.hasCallback {
      assert !NoReads(log, 0, s, w);
      if NoReads(log, done, s, w) {
        var i :| 0 <= i < |log| && IsRead(log[i], w);
        assert i < done;
      }
      if i :| 0 <= i < done && IsRead(log[i], w) {
        assert OwnsRead(s, w, log[i].overlapped.block);
      }
    }
  }

  /** pd_watcher_destroy ignores whether a drain was made and how it ended.  Freeing the struct of a
      stopped watcher is safe exactly when its read is over: for a watcher with a callback, whose updates
      never failed to re-issue a read, exactly when its platform_data is NULL. */
  lemma FreeingIsSafeIff(log: seq<Packet>, done: nat, s: World, w: nat)
    requires Inv(true, log, done, s) && w in s.watchers && !s.watchers[w].active
    requires !s.watchers[w].phase.MustDrain? && !s.watchers[w].phase.Draining?
    ensures Sound(s, w)
    ensures Inv(true, log, done, Release(s, w)) <==> ReadIsOver(log, done, s, w) && NoWrites(log, done, s, w)
    ensures s.watchers[w].hasCallback && (s.watchers[w].data.Some? ==> !s.heap[s.watchers[w].data.value].armFailed) ==>
              (Inv(true, log, done, Release(s, w)) <==> s.watchers[w].data.None?)
  {
    assert Good(true, log, done, s, w);
    StoppedIsUnreferencedIff(log, done, s, w);
    ReleaseNeedsUnreferenced(log, done, s, w);
  }

  /** Dispatch reaches the callback with this completion. */
  predicate Heard(s: World, p: Packet)
  {
    && p.IoDone? && p.watcher in s.watchers && s.watchers[p.watcher].hasCallback && s.watchers[p.watcher].data.Some?
    && var b := s.watchers[p.watcher].data.value;
       b in s.heap && !s.heap[b].stopping && (p.overlapped == Embedded(b) ==> !s.heap[b].internal.Cancelled?)
  }

  /** A callback that destroys its own watcher.  After a read's callback the loop reads the struct again,
      so there it is always an access to freed memory; after a write's callback it is safe exactly when
      no read is in flight: the pending flag is clear, or a re-issue had failed. */
  lemma DestroyInCallbackIsSafeIff(log: seq<Packet>, done: nat, s: World, plan: Plan)
    requires Inv(true, log, done, s) && done < |log| && Heard(s, log[done]) && plan.after.DestroySelf?
    requires NoWrites(log, done + 1, s, log[done].watcher) && (log[done].overlapped.Embedded? ==> log[done].bytes <= BUFFER_SIZE)
    ensures var p := log[done];
            var b := s.watchers[p.watcher].data.value;
            var t := Dispatch(s, p.watcher, p.overlapped, p.bytes, plan);
            && (p.overlapped.Embedded? ==> t.loopFault)
            && (Inv(true, log, done + 1, t) <==> p.overlapped.Callers? && (s.heap[b].pending ==> s.heap[b].armFailed))
  {
    hide Inv, Consume, RunAfter, Rearm, Dispatch, EventOf, NoWrites;
    var p := log[done];
    var w, b := p.watcher, s.watchers[p.watcher].data.value;
    HeardIsOwn(log, done, s);
    HeardDispatch(s, p, plan);
    if p.overlapped.Embedded? {
      DestroyInReadCallback(s, w, b, p.bytes, plan);
      FaultyIsNotInv(log, done + 1, Dispatch(s, w, p.overlapped, p.bytes, plan));
    } else {
      DestroyInWriteCallback(log, done, s, w, b);
    }
  }

  lemma FaultyIsNotInv(log: seq<Packet>, done: nat, s: World)
    requires s.loopFault
    ensures !Inv(true, log, done, s)
  {
  }

  lemma HeardIsOwn(log: seq<Packet>, done: nat, s: World)
    requires Inv(true, log, done, s) && done < |log| && Heard(s, log[done])
    ensures log[done].overlapped.Embedded? ==> log[done].overlapped == Embedded(s.watchers[log[done].watcher].data.value)
  {
    assert Good(true, log, done, s, log[done].watcher);
  }

  lemma HeardDispatch(s: World, p: Packet, plan: Plan)
    requires Heard(s, p) && plan.after.DestroySelf? && (p.overlapped.Embedded? ==> p.bytes <= BUFFER_SIZE)
    requires var b := s.watchers[p.watcher].data.value; p.overlapped.Embedded? ==> p.overlapped == Embedded(b)
    ensures var w, b := p.watcher, s.watchers[p.watcher].data.value;
            Dispatch(s, w, p.overlapped, p.bytes, plan)
            == if p.overlapped.Embedded? then
                 var s1 := Consume(s, w, b, p.bytes, plan.lens);
                 assert w in s1.watchers by { ThoroughOnly(s, w, b, p.bytes, plan.lens); }
                 Rearm(RunAfter(s1, w, plan.after), w, EventOf(s.heap[b], p.bytes), plan.reissued)
               else Release(Stop(Called(s, w, Write), w, s.loopThread), w)
  {
    hide Consume, Stop, Release, Rearm, EventOf;
  }

  lemma DestroyInReadCallback(s: World, w: nat, b: nat, bytes: Length, plan: Plan)
    requires w in s.watchers && s.watchers[w].data == Some(b) && b in s.heap && plan.after.DestroySelf?
    ensures w in Consume(s, w, b, bytes, plan.lens).watchers
    ensures Rearm(RunAfter(Consume(s, w, b, bytes, plan.lens), w, plan.after), w, EventOf(s.heap[b], bytes), plan.reissued).loopFault
  {
    ThoroughOnly(s, w, b, bytes, plan.lens);
    hide Consume, EventOf;
  }

  lemma DestroyInWriteCallback(log: seq<Packet>, done: nat, s: World, w: nat, b: nat)
    requires Inv(true, log, done, s) && done < |log| && IsWrite(log[done], w) && NoWrites(log, done + 1, s, w)
    requires w in s.watchers && s.watchers[w].hasCallback && s.watchers[w].data == Some(b) && b in s.heap && !s.heap[b].stopping
    ensures var s1 := Called(s, w, Write);
            w in Stop(s1, w, s.loopThread).watchers
            && (Inv(true, log, done + 1, Release(Stop(s1, w, s.loopThread), w)) <==> (s.heap[b].pending ==> s.heap[b].armFailed))
  {
    var s1 := Called(s, w, Write);
    WriteTakenKeepsInv(log, done, s, w);
    HaltKeepsInv(true, log, done + 1, s1, w, s.loopThread);
    assert Good(true, log, done + 1, s1, w);
    StopSelf(s1, w, s.loopThread);
    var t := Stop(s1, w, s.loopThread);
    FreeingIsSafeIff(log, done + 1, t, w);
    hide Inv, Stop, Release;
  }

  lemma WriteTakenKeepsInv(log: seq<Packet>, done: nat, s: World, w: nat)
    requires Inv(true, log, done, s) && done < |log| && IsWrite(log[done], w) && w in s.watchers && s.watchers[w].data.Some?
    ensures Inv(true, log, done + 1, Called(s, w, Write))
  {
    assert Good(true, log, done, s, w);
    WriteKeepsGood(true, log, done, s, w);
    OthersKeepGood(true, log, done, s, w, log[done]);
    InvIsApart(true, log, done, s, w);
    hide Good;
    LocalKeepsInv(true, log, done + 1, s, Called(s, w, Write), w);
  }

  lemma KernelReadShape(s: World, l: Lent, status: Status, data: seq<byte>)
    requires |data| <= BUFFER_SIZE
    ensures var t := KernelRead(s, l, status, data);
            && t == s.(heap := t.heap, watchers := t.watchers, lent := s.lent - multiset{l}, kernelFault := s.kernelFault || l.block !in s.heap)
            && t.heap == (if l.block in s.heap then s.heap[l.block := Deposit(s.heap[l.block], status, data)] else s.heap)
            && t.watchers == if l.block in s.heap && status.Success? && l.watcher in s.watchers then
                               var x := s.watchers[l.watcher];
                               s.watchers[l.watcher := x.(delivered := x.delivered + data, undispatched := data)]
                             else s.watchers
  {
    hide Deposit;
  }

  lemma CompletedIsGood(strict: bool, log: seq<Packet>, done: nat, s: World, l: Lent, status: Status, data: seq<byte>)
    requires l.watcher in s.watchers && Good(strict, log, done, s, l.watcher)
    requires l in s.lent && |data| <= BUFFER_SIZE && done <= |log|
    ensures var t := KernelRead(s, l, status, data);
            l.watcher in t.watchers && Good(strict, log + [IoDone(l.watcher, Embedded(l.block), |data|)], done, t, l.watcher)
  {
    var t := KernelRead(s, l, status, data);
    var log' := log + [IoDone(l.watcher, Embedded(l.block), |data|)];
    KernelReadShape(s, l, status, data);
    hide KernelRead;
    if strict {
      assert IsRead(log'[|log|], l.watcher);
      forall b | Lent(l.watcher, b) in s.lent ensures b == l.block {
        assert OwnsRead(s, l.watcher, b) && OwnsRead(s, l.watcher, l.block);
      }
      assert t.heap[l.block].buffer[..|data|] == data;
    }
  }

  lemma CompleteIsAnchored(strict: bool, log: seq<Packet>, done: nat, s: World, l: Lent, status: Status, data: seq<byte>)
    requires Anchored(log, done, s) && l in s.lent && |data| <= BUFFER_SIZE
    ensures Anchored(log + [IoDone(l.watcher, Embedded(l.block), |data|)], done, KernelRead(s, l, status, data))
  {
    var t := KernelRead(s, l, status, data);
    assert forall k <- t.lent :: k in s.lent;
    assert t.heap.Keys == s.heap.Keys && t.watchers.Keys == s.watchers.Keys;
  }

  lemma CompleteIsApart(s: World, l: Lent, status: Status, data: seq<byte>, v: nat)
    requires v in s.watchers && v != l.watcher && Sound(s, v) && |data| <= BUFFER_SIZE
    ensures var t := KernelRead(s, l, status, data);
            v in t.watchers && Sound(t, v) && (s.watchers[v].data != Some(l.block) ==> Same(s, t, v))
  {
    KernelReadShape(s, l, status, data);
    hide Deposit, KernelRead;
  }

  lemma CompleteKeepsOther(strict: bool, log: seq<Packet>, done: nat, s: World, l: Lent, status: Status, data: seq<byte>, v: nat)
    requires Inv(strict, log, done, s) && Enabled(strict, log, done, s, CompleteRead(l, status, data))
    requires v in s.watchers && v != l.watcher
    ensures v in KernelRead(s, l, status, data).watchers
    ensures Good(strict, log + [IoDone(l.watcher, Embedded(l.block), |data|)], done, KernelRead(s, l, status, data), v)
  {
    var x := IoDone(l.watcher, Embedded(l.block), |data|);
    assert Good(strict, log, done, s, l.watcher);
    assert strict ==> OwnsRead(s, l.watcher, l.block);
    InvIsApart(strict, log, done, s, l.watcher);
    OtherPacketKeepsGood(strict, log, done, s, v, x);
    hide KernelRead, Truthful, Streaming, Retiring, Lending;
    CompleteIsApart(s, l, status, data, v);
    if strict {
      SameKeepsGood(strict, log + [x], done, s, KernelRead(s, l, status, data), v);
    }
  }

  lemma CompleteReadKeepsInv(strict: bool, log: seq<Packet>, done: nat, s: World, l: Lent, status: Status, data: seq<byte>)
    requires Inv(strict, log, done, s) && Enabled(strict, log, done, s, CompleteRead(l, status, data))
    ensures Inv(strict, log + [IoDone(l.watcher, Embedded(l.block), |data|)], done, KernelRead(s, l, status, data))
  {
    hide Good, KernelRead;
    var t := KernelRead(s, l, status, data);
    CompleteIsAnchored(strict, log, done, s, l, status, data);
    CompleteKeepsOwn(strict, log, done, s, l, status, data);
    forall v <- s.watchers | v != l.watcher
      ensures v in t.watchers && Good(strict, log + [IoDone(l.watcher, Embedded(l.block), |data|)], done, t, v)
    {
      CompleteKeepsOther(strict, log, done, s, l, status, data, v);
    }
  }

  lemma CompleteKeepsOwn(strict: bool, log: seq<Packet>, done: nat, s: World, l: Lent, status: Status, data: seq<byte>)
    requires Inv(strict, log, done, s) && Enabled(strict, log, done, s, CompleteRead(l, status, data))
    ensures var t := KernelRead(s, l, status, data);
            && t.watchers.Keys == s.watchers.Keys && (strict ==> !t.kernelFault) && l.watcher in t.watchers
            && Good(strict, log + [IoDone(l.watcher, Embedded(l.block), |data|)], done, t, l.watcher)
  {
    assert Good(strict, log, done, s, l.watcher);
    assert strict ==> OwnsRead(s, l.watcher, l.block);
    CompletedIsGood(strict, log, done, s, l, status, data);
    hide Good, Deposit;
  }

  lemma WrittenIsGood(strict: bool, log: seq<Packet>, done: nat, s: World, w: nat, id: nat, bytes: nat)
    requires w in s.watchers && Good(strict, log, done, s, w) && w in s.writing && done <= |log|
    ensures Good(strict, log + [IoDone(w, Callers(id), bytes)], done, s.(writing := s.writing - multiset{w}), w)
  {
    var x := IoDone(w, Callers(id), bytes);
    var t := s.(writing := s.writing - multiset{w});
    OtherPacketIsNoRead(log, done, t, w, x);
    OtherPostKeepsMute(log, t, w, x);
    if strict && !s.watchers[w].active {
      LateWriteStaysOne(log, done, s, w, x);
    }
    hide Mute, NoReads, Homed, OneWrite;
  }

  lemma LateWriteStaysOne(log: seq<Packet>, done: nat, s: World, w: nat, x: Packet)
    requires w in s.writing && done <= |log| && IsWrite(x, w)
    ensures OneWrite(log, done, s, w) ==> OneWrite(log + [x], done, s.(writing := s.writing - multiset{w}), w)
  {
  }

  lemma KernelWriteKeepsInv(strict: bool, log: seq<Packet>, done: nat, s: World, w: nat, id: nat, bytes: nat)
    requires Inv(strict, log, done, s) && Enabled(strict, log, done, s, KernelWrite(w, id, bytes))
    ensures Inv(strict, log + [IoDone(w, Callers(id), bytes)], done, s.(writing := s.writing - multiset{w}))
  {
    var x := IoDone(w, Callers(id), bytes);
    var t := s.(writing := s.writing - multiset{w});
    assert Good(strict, log, done, s, w);
    WrittenIsGood(strict, log, done, s, w, id, bytes);
    OthersKeepGood(strict, log, done, s, w, x);
    forall v <- t.watchers ensures Good(strict, log + [x], done, t, v) {
      if v != w {
        SameKeepsGood(strict, log + [x], done, s, t, v);
      }
    }
  }

  lemma WritingIsGood(strict: bool, log: seq<Packet>, done: nat, s: World, w: nat)
    requires w in s.watchers && Good(strict, log, done, s, w) && (strict ==> s.watchers[w].active)
    ensures Good(strict, log, done, s.(writing := s.writing + multiset{w}), w)
  {
  }

  lemma BeginWriteKeepsInv(strict: bool, log: seq<Packet>, done: nat, s: World, w: nat)
    requires Inv(strict, log, done, s) && Enabled(strict, log, done, s, BeginWrite(w))
    ensures Inv(strict, log, done, s.(writing := s.writing + multiset{w}))
  {
    var t := s.(writing := s.writing + multiset{w});
    forall v <- t.watchers ensures Good(strict, log, done, t, v) {
      assert Good(strict, log, done, s, v);
      if v == w {
        WritingIsGood(strict, log, done, s, w);
      } else {
        SameKeepsGood(strict, log, done, s, t, v);
      }
    }
  }

  ghost predicate PhaseFits(log: seq<Packet>, done: nat, s: World, w: nat, phase: Phase)
  {
    match phase
    case Draining(t, _) =>
      && t < |log| && (forall b :: Lent(w, b) !in s.lent)
      && forall i :: done <= i < |log| && Keyed(log[i], w) ==> i < t
    case Drained => Unreferenced(log, done, s, w)
    case _ => true
  }

  lemma PhaseIsGood(strict: bool, log: seq<Packet>, done: nat, s: World, w: nat, phase: Phase)
    requires w in s.watchers && Good(strict, log, done, s, w) && !s.watchers[w].active && !phase.Running?
    requires phase.MustDrain? || phase.Draining? ==> s.loopThread != 0 && phase.thread != s.loopThread
    requires strict ==> PhaseFits(log, done, s, w, phase) && w !in s.writing
    ensures Good(strict, log, done, SetWatcher(s, w, s.watchers[w].(phase := phase)), w)
    ensures Apart(s, w) ==> Local(s, SetWatcher(s, w, s.watchers[w].(phase := phase)), w)
  {
  }

  lemma PhaseKeepsInv(strict: bool, log: seq<Packet>, done: nat, s: World, w: nat, phase: Phase)
    requires Inv(strict, log, done, s) && w in s.watchers && !s.watchers[w].active && !phase.Running?
    requires phase.MustDrain? || phase.Draining? ==> s.loopThread != 0 && phase.thread != s.loopThread
    requires strict ==> PhaseFits(log, done, s, w, phase) && w !in s.writing
    ensures Inv(strict, log, done, SetWatcher(s, w, s.watchers[w].(phase := phase)))
  {
    var t := SetWatcher(s, w, s.watchers[w].(phase := phase));
    assert Good(strict, log, done, s, w);
    InvIsApart(strict, log, done, s, w);
    PhaseIsGood(strict, log, done, s, w, phase);
    LocalKeepsInv(strict, log, done, s, t, w);
  }

  lemma PostSyncKeepsInv(strict: bool, log: seq<Packet>, done: nat, s: World, w: nat)
    requires Inv(strict, log, done, s) && Enabled(strict, log, done, s, PostSync(w))
    ensures Inv(strict, log + [Sync(|log|)], done,
                SetWatcher(s, w, s.watchers[w].(phase := Phase.Draining(|log|, s.watchers[w].phase.thread))))
  {
    assert Good(strict, log, done, s, w);
    ForeignPacketKeepsInv(strict, log, done, s, Sync(|log|));
    PhaseKeepsInv(strict, log + [Sync(|log|)], done, s, w, Phase.Draining(|log|, s.watchers[w].phase.thread));
  }

  lemma SyncEndKeepsInv(strict: bool, log: seq<Packet>, done: nat, s: World, w: nat, seen: bool)
    requires Inv(strict, log, done, s) && Enabled(strict, log, done, s, if seen then SyncSeen(w) else SyncTimedOut(w))
    ensures Inv(strict, log, done, SetWatcher(s, w, s.watchers[w].(phase := if seen then Drained else GaveUp)))
  {
    assert Good(strict, log, done, s, w);
    PhaseKeepsInv(strict, log, done, s, w, if seen then Drained else GaveUp);
  }

  lemma ChangeKeepsInv(strict: bool, log: seq<Packet>, done: nat, s: World, w: nat, read: bool, issued: bool)
    requires Inv(strict, log, done, s) && w in s.watchers
    ensures Inv(strict, log, done, Update(s, w, read, issued))
  {
    assert Good(strict, log, done, s, w);
    InvIsApart(strict, log, done, s, w);
    UpdateIsLocal(s, w, read, issued);
    UpdateKeepsGood(strict, log, done, s, w, read, issued);
    LocalKeepsInv(strict, log, done, s, Update(s, w, read, issued), w);
  }

  lemma HaltKeepsInv(strict: bool, log: seq<Packet>, done: nat, s: World, w: nat, thread: nat)
    requires Inv(strict, log, done, s) && w in s.watchers && (strict ==> MayStop(log, done, s, w, thread))
    ensures Inv(strict, log, done, Stop(s, w, thread))
  {
    assert Good(strict, log, done, s, w);
    InvIsApart(strict, log, done, s, w);
    StopIsLocal(s, w, thread);
    StopKeepsGood(strict, log, done, s, w, thread);
    LocalKeepsInv(strict, log, done, s, Stop(s, w, thread), w);
  }

  lemma TakeKeepsInv(strict: bool, log: seq<Packet>, done: nat, s: World, plan: Plan)
    requires Inv(strict, log, done, s) && Enabled(strict, log, done, s, DispatchIo(plan))
    ensures Inv(strict, log + Next(strict, log, done, s, DispatchIo(plan)).1, done + 1, Next(strict, log, done, s, DispatchIo(plan)).0)
  {
    DispatchKeepsInv(strict, log, done, s, plan);
    assert log + [] == log;
  }

  /** Read-buffer safety is inductive: every step of every thread and of the kernel keeps it. */
  lemma NextKeepsInv(strict: bool, log: seq<Packet>, done: nat, s: World, step: Step)
    requires Inv(strict, log, done, s) && Enabled(strict, log, done, s, step)
    ensures var (t, posts) := Next(strict, log, done, s, step);
            Inv(strict, log + posts, done + (if step.DispatchIo? then 1 else 0), t)
  {
    if step.DispatchIo? {
      TakeKeepsInv(strict, log, done, s, step.plan);
      return;
    }
    assert log + [] == log;
    match step
    case Create(w, b, hasCallback, read) => CreateKeepsInv(strict, log, done, s, w, b, hasCallback, read);
    case Change(w, read, issued) => ChangeKeepsInv(strict, log, done, s, w, read, issued);
    case Halt(w, thread) => HaltKeepsInv(strict, log, done, s, w, thread);
    case PostSync(w) => PostSyncKeepsInv(strict, log, done, s, w);
    case SyncSeen(w) => SyncEndKeepsInv(strict, log, done, s, w, true);
    case SyncTimedOut(w) => SyncEndKeepsInv(strict, log, done, s, w, false);
    case Destroy(w) => DestroyIsSafe(strict, log, done, s, w);
    case BeginWrite(w) => BeginWriteKeepsInv(strict, log, done, s, w);
    case KernelWrite(w, id, bytes) => KernelWriteKeepsInv(strict, log, done, s, w, id, bytes);
    case CompleteRead(l, status, data) => CompleteReadKeepsInv(strict, log, done, s, l, status, data);
  }
}
