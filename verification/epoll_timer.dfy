/** Timers on epoll (timer.c with the timerfd functions of epoll.c): each owns a timerfd, a cell that
    holds the descriptor, and a watcher made by pd_watcher_create.  Destroying the watcher comes
    before closing the timerfd, so that its DEL is issued while the number is still the timer's own. */
module EpollTimer {
  import opened Growable
  import opened Options
  import opened Epoll
  import O = Ownership

  /** pd_timer_t: the addresses of the struct, of the cell and of the watcher, and `active`. */
  datatype Timer = Timer(block: nat, cell: nat, watcher: nat, fd: int, active: bool)

  /** The outcomes of the allocations and system calls of pd_timer_create. */
  datatype Chance = Chance(timerMem: bool, fdOk: bool, cellMem: bool, structMem: bool, luck: Luck, listMem: bool, callback: bool)

  function Alloc(s: State): State { s.(heap := s.heap + {s.nextBlock}, nextBlock := s.nextBlock + 1) }

  /** epoll_timer_create: the timerfd, its cell, and a watcher that is stopped at once.  fd is the
      number that the kernel gives to the new timerfd. */
  function Provide(s: State, fd: int, c: Chance): (State, Option<(nat, nat)>)
  {
    if !c.fdOk then (s, None)
    else
      var s1 := Open(s, fd);
      if !c.cellMem then (Close(s1, fd), None)
      else
        var cell := s1.nextBlock;
        var (s2, w) := Create(Alloc(s1), fd, c.callback, c.structMem, c.luck, c.listMem);
        if w.None? then (Free(Close(s2, fd), Some(cell)), None) else (Stop(s2, w.value).0, Some((cell, w.value)))
  }

  /** pd_timer_create */
  function TimerCreate(s: State, fd: int, c: Chance): (State, Option<Timer>)
  {
    if !c.timerMem then (s, None)
    else
      var (s1, parts) := Provide(Alloc(s), fd, c);
      if parts.None? then (Free(s1, Some(s.nextBlock)), None)
      else (s1, Some(Timer(s.nextBlock, parts.value.0, parts.value.1, fd, false)))
  }

  datatype Op = StartTimer(armed: bool, luck: Luck) | StopTimer(disarmed: bool)

  /** pd_timer_start and pd_timer_stop; `armed`/`disarmed` is the outcome of timerfd_settime. */
  function Operate(s: State, t: Timer, op: Op): (r: (State, Timer))
    requires t.watcher in s.watchers
    ensures t.watcher in r.0.watchers && r.1 == t.(active := r.1.active)
  {
    match op
    case StartTimer(armed, luck) =>
      if t.active || !armed then (s, t)
      else
        var (s1, code) := Start(s, t.watcher, luck);
        (s1, t.(active := code.Ok?))
    case StopTimer(disarmed) =>
      if !t.active || !disarmed then (s, t)
      else
        var (s1, code) := Stop(s, t.watcher);
        (s1, t.(active := !code.Ok?))
  }

  /** pd_timer_destroy: stop, destroy the watcher, close the timerfd, free the cell and the struct. */
  function TimerDestroy(s: State, t: Timer, disarmed: bool): State
    requires t.watcher in s.watchers
  {
    var (s1, t1) := Operate(s, t, StopTimer(disarmed));
    Free(Free(Close(Destroy(s1, t.watcher), t.fd), Some(t.cell)), Some(t.block))
  }

  /* ---------------- what is held between create and destroy ---------------- */

  /** Every DEL since the log `before` was issued for w on number fd while it denoted this file. */
  ghost predicate OwnDels(before: seq<Del>, dels: seq<Del>, fd: int, w: nat, file: nat)
  {
    && |before| <= |dels| && dels[..|before|] == before
    && forall k :: |before| <= k < |dels| ==> dels[k] == Del(fd, w, Some(file))
  }

  /** State s is the state s0 of before the timer's creation, plus exactly what timer t holds. */
  ghost predicate Holds(s0: State, s: State, t: Timer)
  {
    Inv(s) && Shape(s0, s, t)
  }

  ghost predicate Shape(s0: State, s: State, t: Timer)
  {
    && t.watcher in s.watchers && t.fd !in s0.files && t.fd !in s0.kernel
    && t.watcher !in s0.watchers && t.watcher !in s0.list && (forall r <- s0.records :: r.watcher != t.watcher)
    && var x := s.watchers[t.watcher];
       && x.fd == t.fd && x.active == t.active && (x.active ==> x.file == s0.nextFile)
       && s.files == s0.files[t.fd := s0.nextFile]
       && s.kernel == (if x.active then s0.kernel[t.fd := t.watcher] else s0.kernel)
       && s.records == Evict(s0.records, t.fd, t.watcher) + (if x.active then [Record(t.fd, t.watcher)] else [])
       && s.watchers == s0.watchers[t.watcher := x]
       && s.list == s0.list + [t.watcher]
       && s.heap == s0.heap + {t.block, t.cell, t.watcher} + Block(x.data)
       && Apart(s0, t, x.data)
       && OwnDels(s0.dels, s.dels, t.fd, t.watcher, s0.nextFile)
  }

  /** The timer's four allocations are different, and none of them was live before. */
  predicate Apart(s0: State, t: Timer, data: Option<nat>)
  {
    && t.block !in s0.heap && t.cell !in s0.heap && t.watcher !in s0.heap && Block(data) !! s0.heap
    && t.block != t.cell && t.block != t.watcher && t.cell != t.watcher && Block(data) !! {t.block, t.cell, t.watcher}
    && (forall b <- s0.heap :: b < t.block) && t.block < t.cell < t.watcher && (data.Some? ==> t.watcher < data.value)
  }

  lemma EvictTwice(rs: seq<Record>, fd: int, w: nat)
    requires Unique(rs)
    ensures Evict(Evict(rs, fd, w), fd, w) == Evict(rs, fd, w)
  {
    EvictMembers(rs, fd, w);
    var ts := Evict(rs, fd, w);
    forall k | 0 <= k < |ts| ensures !(ts[k].ident == fd && ts[k].watcher != w) {
      assert ts[k] in ts;
    }
  }

  lemma RegisterDels(s: State, w: nat, luck: Luck)
    requires w in s.watchers
    ensures var t := Register(s, w, luck).0;
            && (t.dels == s.dels || t.dels == s.dels + [Del(s.watchers[w].fd, w, FileAt(s, s.watchers[w].fd))])
            && t.list == s.list && t.nextBlock >= s.nextBlock
  {
  }

  function FileAt(s: State, fd: int): Option<nat> { if fd in s.files then Some(s.files[fd]) else None }

  lemma UnregisterDels(s: State, w: nat)
    requires w in s.watchers
    ensures var t := Unregister(s, w).0;
            && w in t.watchers && t.watchers[w].fd == s.watchers[w].fd && t.files == s.files
            && (t.dels == s.dels || t.dels == s.dels + [Del(s.watchers[w].fd, w, FileAt(s, s.watchers[w].fd))])
  {
  }

  lemma AllocKeepsInv(s: State)
    requires Inv(s)
    ensures Inv(Alloc(s))
  {
    var t := Alloc(s);
    forall fd <- t.kernel ensures Owns(t, fd, t.kernel[fd]) {
      assert Owns(s, fd, s.kernel[fd]);
    }
    forall v <- t.watchers | Owns(t, t.watchers[v].fd, v) ensures t.watchers[v].fd in t.kernel && t.kernel[t.watchers[v].fd] == v {
      assert Owns(s, s.watchers[v].fd, v);
    }
  }

  lemma ClosedNotInKernel(s: State, fd: int)
    requires Ownership(s) && fd !in s.files
    ensures fd !in s.kernel
  {
    assert fd in s.kernel ==> Owns(s, fd, s.kernel[fd]);
  }

  /** The watcher of a fresh timer, registered on the timer's own file, can be stopped at once. */
  lemma OwnFileIsNotStuck(s: State, w: nat)
    requires Ownership(s) && w in s.watchers && s.watchers[w].active && Owns(s, s.watchers[w].fd, w)
    ensures !Stuck(s, w)
  {
  }

  lemma StopDels(s: State, w: nat)
    requires w in s.watchers
    ensures var t := Stop(s, w).0;
            t.dels == s.dels || t.dels == s.dels + [Del(s.watchers[w].fd, w, FileAt(s, s.watchers[w].fd))]
  {
    UnregisterDels(SetActive(s, w, false), w);
  }

  lemma StartDels(s: State, w: nat, luck: Luck)
    requires w in s.watchers
    ensures var t := Start(s, w, luck).0;
            && (t.dels == s.dels || t.dels == s.dels + [Del(s.watchers[w].fd, w, FileAt(s, s.watchers[w].fd))])
            && t.list == s.list
  {
    RegisterDels(SetActive(s, w, true), w, luck);
  }

  lemma DestroyDels(s: State, w: nat, before: seq<Del>, file: nat)
    requires w in s.watchers && OwnDels(before, s.dels, s.watchers[w].fd, w, file) && FileAt(s, s.watchers[w].fd) == Some(file)
    ensures OwnDels(before, Destroy(s, w).dels, s.watchers[w].fd, w, file)
  {
    StopDels(s, w);
    UnregisterDels(SetActive(s, w, false), w);
    UnregisterDels(Stop(s, w).0, w);
  }

  lemma DropUndoesAdd(kernel: map<int, nat>, fd: int, w: nat)
    requires fd !in kernel && forall k <- kernel :: kernel[k] != w
    ensures O.Drop(kernel[fd := w], w) == kernel
  {
    var m := O.Drop(kernel[fd := w], w);
    forall k ensures k in m <==> k in kernel {
      assert k in kernel ==> kernel[fd := w][k] == kernel[k];
    }
  }

  /** Stopping a watcher whose record was appended last leaves the records before it. */
  lemma RecordsBack(b: State, rs: seq<Record>, w: nat)
    requires w in b.watchers && b.watchers[w].active && !Stuck(b, w)
    requires (forall r <- rs :: r.watcher != w) && exists fd :: b.records == rs + [Record(fd, w)]
    ensures RecordsAfter(b, w) == rs
  {
    var fd :| b.records == rs + [Record(fd, w)];
    SwapRemoveLast(rs, Record(fd, w));
  }

  /** State t is a after a watcher was created and stopped: the struct, the list entry and the
      eviction remain. */
  ghost predicate Idled(a: State, t: State, fd: int, hasCallback: bool)
  {
    var w := a.nextBlock;
    && fd in a.files && t.files == a.files && t.nextFile == a.nextFile && t.kernel == a.kernel
    && t.records == Evict(a.records, fd, w)
    && t.watchers == a.watchers[w := Watcher(fd, hasCallback, false, None, a.files[fd])]
    && t.list == a.list + [w] && t.heap == a.heap + {w}
  }

  lemma BornStoppedShape(a: State, b: State, t: State, fd: int, hasCallback: bool)
    requires Inv(a) && Born(a, b, fd, hasCallback) && !Stuck(b, a.nextBlock)
    requires var w := a.nextBlock;
             t == b.(kernel := O.Drop(b.kernel, w), records := RecordsAfter(b, w), dels := t.dels,
                     watchers := b.watchers[w := b.watchers[w].(active := false, data := None)],
                     heap := b.heap - Block(b.watchers[w].data))
    ensures Idled(a, t, fd, hasCallback)
  {
    var w := a.nextBlock;
    NewIdIsNew(a, fd);
    RecordsBack(b, Evict(a.records, fd, w), w);
    DropUndoesAdd(a.kernel, fd, w);
    assert w + 1 !in a.heap;
    HeapBack(a.heap, w);
  }

  lemma BornStopped(a: State, b: State, fd: int, hasCallback: bool)
    requires Inv(a) && Inv(b) && Born(a, b, fd, hasCallback)
    ensures var t := Stop(b, a.nextBlock).0;
            && Inv(t) && Idled(a, t, fd, hasCallback)
            && (t.dels == b.dels || t.dels == b.dels + [Del(fd, a.nextBlock, Some(a.files[fd]))])
  {
    var w := a.nextBlock;
    assert Record(fd, w) in b.records;
    OwnFileIsNotStuck(b, w);
    StopKeepsInv(b, w);
    StopSucceeds(b, w);
    StopDels(b, w);
    BornStoppedShape(a, b, Stop(b, w).0, fd, hasCallback);
  }

  lemma HeapBack(heap: set<nat>, w: nat)
    requires w + 1 !in heap
    ensures heap + {w, w + 1} - {w + 1} == heap + {w}
  {
  }

  lemma StopKeepsInv(s: State, w: nat)
    requires Inv(s) && w in s.watchers
    ensures Inv(Stop(s, w).0)
  {
    StopEffect(s, w);
  }

  lemma CreateDels(s: State, fd: int, hasCallback: bool, structMem: bool, luck: Luck, listMem: bool)
    requires Create(s, fd, hasCallback, structMem, luck, listMem).1.Some?
    ensures Create(s, fd, hasCallback, structMem, luck, listMem).0.dels == s.dels
  {
  }

  /** The state in which pd_timer_create calls pd_watcher_create. */
  function Prepared(s0: State, fd: int): State { Alloc(Open(Alloc(s0), fd)) }

  lemma PreparedKeepsInv(s0: State, fd: int)
    requires Inv(s0) && fd !in s0.files
    ensures Inv(Prepared(s0, fd)) && fd !in s0.kernel
  {
    AllocKeepsInv(s0);
    OpenKeepsInv(Alloc(s0), fd);
    AllocKeepsInv(Open(Alloc(s0), fd));
    ClosedNotInKernel(s0, fd);
  }

  /** The addresses of a new timer are in use nowhere, nor is its number in the kernel set. */
  lemma NewTimerIsNew(s0: State, fd: int)
    requires Inv(s0) && fd !in s0.files
    ensures var w := s0.nextBlock + 2;
            && fd !in s0.kernel && w !in s0.watchers && w !in s0.list
            && (forall r <- s0.records :: r.watcher != w) && (forall b <- s0.heap :: b < s0.nextBlock)
  {
    PreparedKeepsInv(s0, fd);
    NewIdIsNew(Prepared(s0, fd), fd);
  }

  lemma IdledHolds(s0: State, t: State, b: seq<Del>, fd: int, hasCallback: bool)
    requires Inv(s0) && fd !in s0.files && Inv(t) && Idled(Prepared(s0, fd), t, fd, hasCallback)
    requires b == s0.dels && (t.dels == b || t.dels == b + [Del(fd, s0.nextBlock + 2, Some(s0.nextFile))])
    ensures Holds(s0, t, Timer(s0.nextBlock, s0.nextBlock + 1, s0.nextBlock + 2, fd, false))
  {
    hide Inv, Evict;
    var w := s0.nextBlock + 2;
    NewTimerIsNew(s0, fd);
    assert t.heap == s0.heap + {s0.nextBlock, s0.nextBlock + 1, w};
    assert Evict(s0.records, fd, w) + [] == Evict(s0.records, fd, w);
  }

  lemma TimerCreateUnfolds(s0: State, fd: int, c: Chance) returns (b: State, w: nat)
    requires TimerCreate(s0, fd, c).1.Some?
    ensures Create(Prepared(s0, fd), fd, c.callback, c.structMem, c.luck, c.listMem) == (b, Some(w)) && w in b.watchers
    ensures TimerCreate(s0, fd, c) == (Stop(b, w).0, Some(Timer(s0.nextBlock, s0.nextBlock + 1, w, fd, false)))
  {
    hide Create, Stop;
    b := Create(Prepared(s0, fd), fd, c.callback, c.structMem, c.luck, c.listMem).0;
    w := Create(Prepared(s0, fd), fd, c.callback, c.structMem, c.luck, c.listMem).1.value;
  }

  lemma BornOnOwnFile(s0: State, fd: int, c: Chance, b: State, w: nat)
    requires Inv(s0) && fd !in s0.files
    requires Create(Prepared(s0, fd), fd, c.callback, c.structMem, c.luck, c.listMem) == (b, Some(w))
    ensures Inv(Prepared(s0, fd)) && Inv(b) && w == s0.nextBlock + 2 && Born(Prepared(s0, fd), b, fd, c.callback) && b.dels == s0.dels
  {
    PreparedKeepsInv(s0, fd);
    CreateEffect(Prepared(s0, fd), fd, c.callback, c.structMem, c.luck, c.listMem);
    CreateDels(Prepared(s0, fd), fd, c.callback, c.structMem, c.luck, c.listMem);
  }

  lemma CreateHolds(s0: State, fd: int, c: Chance)
    requires Inv(s0) && fd !in s0.files && TimerCreate(s0, fd, c).1.Some?
    ensures Holds(s0, TimerCreate(s0, fd, c).0, TimerCreate(s0, fd, c).1.value)
  {
    var b, w := TimerCreateUnfolds(s0, fd, c);
    BornOnOwnFile(s0, fd, c, b, w);
    BornStopped(Prepared(s0, fd), b, fd, c.callback);
    IdledHolds(s0, Stop(b, w).0, s0.dels, fd, c.callback);
  }

  /** State t is s0, but for counters, and an evicted stale record of the number. */
  ghost predicate Undone(s0: State, t: State, fd: int, w: nat)
  {
    && t == s0.(records := t.records, capacity := t.capacity, nextFile := t.nextFile, nextBlock := t.nextBlock, dels := t.dels)
    && (t.records == s0.records || t.records == Evict(s0.records, fd, w))
  }

  /** A creation succeeds exactly when each of its allocations and system calls does, and both arrays take
      the new entries.  One that fails, wherever it does, leaves the open files, the kernel set, the
      watchers, the list and the live allocations as they were. */
  lemma CreateOrUndo(s0: State, fd: int, c: Chance)
    requires Inv(s0) && fd !in s0.files
    ensures TimerCreate(s0, fd, c).1.Some? <==>
            && c.timerMem && c.fdOk && c.cellMem && c.structMem && c.luck.dataMem && c.luck.addOk
            && (|Evict(s0.records, fd, s0.nextBlock + 2)| < s0.capacity || c.luck.growMem)
            && (|s0.list| < s0.listCapacity || c.listMem)
    ensures TimerCreate(s0, fd, c).1.None? ==> Undone(s0, TimerCreate(s0, fd, c).0, fd, s0.nextBlock + 2)
  {
    hide Inv, Create, Evict, Stop, Born, TimerCreate, Undone;
    PreparedKeepsInv(s0, fd);
    NewTimerIsNew(s0, fd);
    CreateEffect(Prepared(s0, fd), fd, c.callback, c.structMem, c.luck, c.listMem);
    if c.timerMem && c.fdOk && c.cellMem {
      CreateDecides(s0, fd, c);
    } else {
      FailsEarly(s0, fd, c);
    }
  }

  lemma FailsEarly(s0: State, fd: int, c: Chance)
    requires !(c.timerMem && c.fdOk && c.cellMem) && s0.nextBlock !in s0.heap && fd !in s0.files && fd !in s0.kernel
    ensures TimerCreate(s0, fd, c).1.None? && Undone(s0, TimerCreate(s0, fd, c).0, fd, s0.nextBlock + 2)
  {
    hide Create, Evict, Stop;
    assert s0.heap + {s0.nextBlock} - {s0.nextBlock} == s0.heap;
    assert s0.files[fd := s0.nextFile] - {fd} == s0.files;
    assert s0.kernel - {fd} == s0.kernel;
  }

  lemma CreateDecides(s0: State, fd: int, c: Chance)
    requires c.timerMem && c.fdOk && c.cellMem && s0.nextBlock !in s0.heap && s0.nextBlock + 1 !in s0.heap && fd !in s0.files && fd !in s0.kernel
    requires var a := Prepared(s0, fd);
             var (u, w) := Create(a, fd, c.callback, c.structMem, c.luck, c.listMem);
             w.None? ==> Unborn(a, u, fd, c.structMem && c.luck.dataMem)
    ensures TimerCreate(s0, fd, c).1.Some? <==> Create(Prepared(s0, fd), fd, c.callback, c.structMem, c.luck, c.listMem).1.Some?
    ensures TimerCreate(s0, fd, c).1.None? ==> Undone(s0, TimerCreate(s0, fd, c).0, fd, s0.nextBlock + 2)
  {
    hide Create, Evict, Stop, Inv;
    var u := Create(Prepared(s0, fd), fd, c.callback, c.structMem, c.luck, c.listMem).0;
    if TimerCreate(s0, fd, c).1.None? {
      assert u.heap == s0.heap + {s0.nextBlock, s0.nextBlock + 1};
      FreedAgain(s0, u, fd);
    }
  }

  lemma FreedAgain(s0: State, u: State, fd: int)
    requires u.heap == s0.heap + {s0.nextBlock, s0.nextBlock + 1} && s0.nextBlock !in s0.heap && s0.nextBlock + 1 !in s0.heap
    requires u.files == s0.files[fd := s0.nextFile] && fd !in s0.files && u.kernel == s0.kernel && fd !in s0.kernel
    ensures var t := Free(Free(Close(u, fd), Some(s0.nextBlock + 1)), Some(s0.nextBlock));
            t == u.(heap := s0.heap, files := s0.files, kernel := s0.kernel, fault := u.fault)
  {
    var t := Free(Free(Close(u, fd), Some(s0.nextBlock + 1)), Some(s0.nextBlock));
    assert t.heap == s0.heap;
    assert t.files == s0.files;
    assert t.kernel == s0.kernel;
  }

  /* ---------------- start and stop ---------------- */

  /** Timer t's watcher is on its own open timerfd, whose number is no other watcher's. */
  ghost predicate OnOwnFile(s: State, t: Timer)
  {
    && t.watcher in s.watchers && s.watchers[t.watcher].fd == t.fd && s.watchers[t.watcher].active == t.active
    && t.fd in s.files && (t.active ==> s.watchers[t.watcher].file == s.files[t.fd])
    && (t.fd in s.kernel ==> s.kernel[t.fd] == t.watcher)
  }

  /** What start and stop achieve.  A started timer is active exactly when the timerfd could be armed and
      its watcher registered, or it was active before; a stopped one exactly when it was active and could
      not be disarmed; and the loop waits for the timerfd exactly while the timer is active. */
  lemma OperateAchieves(s: State, t: Timer, op: Op)
    requires Inv(s) && OnOwnFile(s, t)
    ensures var (s1, t1) := Operate(s, t, op);
            && (op.StartTimer? ==> (t1.active <==> t.active || (op.armed && Registrable(s, t.fd, t.watcher, op.luck))))
            && (op.StopTimer? ==> (t1.active <==> t.active && !op.disarmed))
            && s1.kernel == (if t1.active then s.kernel[t.fd := t.watcher] else s.kernel - {t.fd})
            && (t.active <==> t.fd in s.kernel)
  {
    hide Inv, Start, Stop, Registrable;
    ActiveIsInKernel(s, t);
    if t.active {
      StopsOnOwnFile(s, t);
    } else if op.StartTimer? {
      StartEffect(s, t.watcher, op.luck);
      StartedKernel(s, t, op.luck);
    }
  }

  lemma ActiveIsInKernel(s: State, t: Timer)
    requires Inv(s) && OnOwnFile(s, t)
    ensures t.active <==> t.fd in s.kernel
    ensures s.kernel == if t.active then s.kernel[t.fd := t.watcher] else s.kernel - {t.fd}
  {
    if t.active {
      assert Owns(s, t.fd, t.watcher);
    } else {
      NotActiveNotInKernel(s, t.watcher);
      assert t.fd in s.kernel ==> t.fd in O.Drop(s.kernel, t.watcher);
    }
  }

  lemma StopsOnOwnFile(s: State, t: Timer)
    requires Inv(s) && OnOwnFile(s, t) && t.active
    ensures Stop(s, t.watcher).1.Ok? && Stop(s, t.watcher).0.kernel == s.kernel - {t.fd}
  {
    assert Owns(s, t.fd, t.watcher);
    OwnFileIsNotStuck(s, t.watcher);
    StopEffect(s, t.watcher);
    DelHitsOwnEntry(s, t.watcher);
    assert Record(t.fd, t.watcher) in s.records;
    hide Memory, Listed, Stop, Dropped;
  }

  lemma StartedKernel(s: State, t: Timer, luck: Luck)
    requires Inv(s) && OnOwnFile(s, t) && !t.active
    ensures var (u, code) := Start(s, t.watcher, luck); u.kernel == if code.Ok? then s.kernel[t.fd := t.watcher] else s.kernel
  {
    StartEffect(s, t.watcher, luck);
    hide Inv, Start, Evict;
  }

  lemma OwnDelsStep(before: seq<Del>, dels: seq<Del>, dels': seq<Del>, fd: int, w: nat, file: nat)
    requires OwnDels(before, dels, fd, w, file) && (dels' == dels || dels' == dels + [Del(fd, w, Some(file))])
    ensures OwnDels(before, dels', fd, w, file)
  {
  }

  lemma HeldUnique(s0: State, s: State, t: Timer)
    requires Inv(s0) && Holds(s0, s, t)
    ensures forall r <- Evict(s0.records, t.fd, t.watcher) :: r.watcher != t.watcher
    ensures forall k <- s0.kernel :: s0.kernel[k] != t.watcher
    ensures forall b <- s.heap :: b < s.nextBlock
    ensures s.watchers[t.watcher].active ==> Owns(s, t.fd, t.watcher) && !Stuck(s, t.watcher)
  {
    EvictMembers(s0.records, t.fd, t.watcher);
    NotActiveNotInKernel(s0, t.watcher);
    forall k <- s0.kernel ensures s0.kernel[k] != t.watcher {
      assert k in O.Drop(s0.kernel, t.watcher);
    }
  }

  lemma JoinedShape(s0: State, s: State, s1: State, t: Timer)
    requires Shape(s0, s, t) && !t.active && Joined(s, s1, t.watcher) && (forall b <- s.heap :: b < s.nextBlock)
    requires Evict(Evict(s0.records, t.fd, t.watcher), t.fd, t.watcher) == Evict(s0.records, t.fd, t.watcher)
    requires s.watchers[t.watcher].data.None? && OwnDels(s0.dels, s1.dels, t.fd, t.watcher, s0.nextFile)
    ensures Shape(s0, s1, t.(active := true))
  {
    assert s.records == Evict(s0.records, t.fd, t.watcher);
    assert t.watcher in s.heap;
    assert s1.watchers == s0.watchers[t.watcher := s1.watchers[t.watcher]];
  }

  lemma RefusedHolds(s0: State, s: State, s1: State, t: Timer, evicts: bool)
    requires Inv(s0) && Holds(s0, s, t) && !t.active && Inv(s1) && Refused(s, s1, t.fd, t.watcher, evicts)
    requires OwnDels(s0.dels, s1.dels, t.fd, t.watcher, s0.nextFile)
    ensures Holds(s0, s1, t)
  {
    EvictTwice(s0.records, t.fd, t.watcher);
    assert s.records == Evict(s0.records, t.fd, t.watcher);
  }

  lemma StoppedShape(s0: State, s: State, s1: State, t: Timer)
    requires Shape(s0, s, t) && t.active
    requires var w := t.watcher;
             s1 == s.(kernel := s0.kernel, records := Evict(s0.records, t.fd, w), dels := s1.dels,
                      watchers := s.watchers[w := s.watchers[w].(active := false, data := None)],
                      heap := s.heap - Block(s.watchers[w].data))
    requires OwnDels(s0.dels, s1.dels, t.fd, t.watcher, s0.nextFile)
    ensures Shape(s0, s1, t.(active := false))
  {
    assert Evict(s0.records, t.fd, t.watcher) + [] == Evict(s0.records, t.fd, t.watcher);
    assert s1.heap == s0.heap + {t.block, t.cell, t.watcher} + Block(None);
  }

  lemma StartHolds(s0: State, s: State, t: Timer, luck: Luck)
    requires Inv(s0) && Holds(s0, s, t) && !t.active
    ensures var (s1, code) := Start(s, t.watcher, luck); Holds(s0, s1, t.(active := code.Ok?))
  {
    var s1 := Start(s, t.watcher, luck).0;
    StartEffect(s, t.watcher, luck);
    StartDels(s, t.watcher, luck);
    OwnDelsStep(s0.dels, s.dels, s1.dels, t.fd, t.watcher, s0.nextFile);
    if Start(s, t.watcher, luck).1.Ok? {
      EvictTwice(s0.records, t.fd, t.watcher);
      JoinedKeepsInv(s, s1, t.watcher);
      JoinedShape(s0, s, s1, t);
    } else {
      RefusedHolds(s0, s, s1, t, luck.dataMem);
    }
  }

  lemma StopHolds(s0: State, s: State, t: Timer)
    requires Inv(s0) && Holds(s0, s, t) && t.active
    ensures Stop(s, t.watcher).1.Ok?
    ensures Holds(s0, Stop(s, t.watcher).0, t.(active := false))
  {
    var s1 := Stop(s, t.watcher).0;
    HeldUnique(s0, s, t);
    StopKeepsInv(s, t.watcher);
    StopEffect(s, t.watcher);
    StopSucceeds(s, t.watcher);
    StopDels(s, t.watcher);
    OwnDelsStep(s0.dels, s.dels, s1.dels, t.fd, t.watcher, s0.nextFile);
    RecordsBack(s, Evict(s0.records, t.fd, t.watcher), t.watcher);
    DropUndoesAdd(s0.kernel, t.fd, t.watcher);
    StoppedShape(s0, s, s1, t);
  }

  lemma OperateHolds(s0: State, s: State, t: Timer, op: Op)
    requires Inv(s0) && Holds(s0, s, t)
    ensures var (s1, t1) := Operate(s, t, op); Holds(s0, s1, t1)
  {
    match op
    case StartTimer(armed, luck) =>
      if !t.active && armed {
        StartHolds(s0, s, t, luck);
      }
    case StopTimer(disarmed) =>
      if t.active && disarmed {
        StopHolds(s0, s, t);
      }
  }

  function OperateAll(s: State, t: Timer, ops: seq<Op>): (r: (State, Timer))
    requires t.watcher in s.watchers
    ensures t.watcher in r.0.watchers && r.1 == t.(active := r.1.active)
    decreases |ops|
  {
    if ops == [] then (s, t)
    else
      var (s1, t1) := Operate(s, t, ops[0]);
      OperateAll(s1, t1, ops[1..])
  }

  lemma {:induction false} OperateAllHolds(s0: State, s: State, t: Timer, ops: seq<Op>)
    requires Inv(s0) && Holds(s0, s, t)
    ensures var (s1, t1) := OperateAll(s, t, ops); Holds(s0, s1, t1)
    decreases |ops|
  {
    if ops != [] {
      OperateHolds(s0, s, t, ops[0]);
      var (s1, t1) := Operate(s, t, ops[0]);
      OperateAllHolds(s0, s1, t1, ops[1..]);
    }
  }

  /* ---------------- destroy ---------------- */

  /** State s is s0 again: the same files, kernel set, watchers, list order and live allocations; the
      records are those of s0 but for the stale one that the timer's creation evicted. */
  ghost predicate Restored(s0: State, s: State, fd: int, w: nat)
  {
    && s.files == s0.files && s.kernel == s0.kernel && s.watchers == s0.watchers && s.list == s0.list
    && s.heap == s0.heap && !s.fault && s.records == Evict(s0.records, fd, w)
  }

  lemma DestroyedRestores(s0: State, s: State, s1: State, t: Timer)
    requires Inv(s0) && Holds(s0, s, t) && Destroyed(s, s1, t.watcher)
    ensures Restored(s0, Free(Free(Close(s1, t.fd), Some(t.cell)), Some(t.block)), t.fd, t.watcher)
  {
    var w := t.watcher;
    HeldUnique(s0, s, t);
    WithoutMembers(s0.list, w);
    NotActiveNotInKernel(s0, w);
    if t.active {
      RecordsBack(s, Evict(s0.records, t.fd, w), w);
      DropUndoesAdd(s0.kernel, t.fd, w);
    } else {
      assert Evict(s0.records, t.fd, w) + [] == Evict(s0.records, t.fd, w);
    }
    FreedShape(s0, s, s1, t);
  }

  lemma FreedShape(s0: State, s: State, s1: State, t: Timer)
    requires Shape(s0, s, t) && !Stuck(s, t.watcher) && !s.fault
    requires s1 == s.(kernel := s0.kernel, records := Evict(s0.records, t.fd, t.watcher), dels := s1.dels,
                      watchers := s.watchers - {t.watcher}, list := s0.list,
                      heap := s.heap - Block(s.watchers[t.watcher].data) - {t.watcher})
    ensures Restored(s0, Free(Free(Close(s1, t.fd), Some(t.cell)), Some(t.block)), t.fd, t.watcher)
  {
    assert s0.kernel - {t.fd} == s0.kernel;
    assert s0.files[t.fd := s0.nextFile] - {t.fd} == s0.files;
    assert s1.watchers == s0.watchers;
    assert s1.heap == s0.heap + {t.block, t.cell};
    assert s1.heap - {t.cell} - {t.block} == s0.heap;
  }

  /** The life of an epoll timer.  Create, any sequence of starts and stops with any outcomes, and
      destroy: the loop's watcher sequence, the kernel set, the open files and the live allocations are
      what they were (so timer, cell, watcher, platform_data and timerfd were released exactly once),
      the records are what they were but for an evicted stale one, and every DEL that was issued on
      the way hit the timerfd's number while it still denoted the timer's own file. */
  lemma LifecycleConserves(s0: State, fd: int, c: Chance, ops: seq<Op>, disarmed: bool)
    requires Inv(s0) && fd !in s0.files && TimerCreate(s0, fd, c).1.Some?
    ensures var (s1, t) := TimerCreate(s0, fd, c);
            && t.value.watcher in s1.watchers
            && var (s2, t2) := OperateAll(s1, t.value, ops);
               var s3 := TimerDestroy(s2, t2, disarmed);
               && Restored(s0, s3, fd, t.value.watcher)
               && OwnDels(s0.dels, s3.dels, fd, t.value.watcher, s0.nextFile)
  {
    CreateHolds(s0, fd, c);
    var (s1, t) := TimerCreate(s0, fd, c);
    OperateAllHolds(s0, s1, t.value, ops);
    var (s2, t2) := OperateAll(s1, t.value, ops);
    DestroyReleases(s0, s2, t2, disarmed);
  }

  lemma DestroyReleases(s0: State, s: State, t: Timer, disarmed: bool)
    requires Inv(s0) && Holds(s0, s, t)
    ensures Restored(s0, TimerDestroy(s, t, disarmed), t.fd, t.watcher)
    ensures OwnDels(s0.dels, TimerDestroy(s, t, disarmed).dels, t.fd, t.watcher, s0.nextFile)
  {
    OperateHolds(s0, s, t, StopTimer(disarmed));
    var (s1, t1) := Operate(s, t, StopTimer(disarmed));
    DestroyEffect(s1, t.watcher);
    DestroyDels(s1, t.watcher, s0.dels, s0.nextFile);
    DestroyedRestores(s0, s1, Destroy(s1, t.watcher), t1);
  }
}
