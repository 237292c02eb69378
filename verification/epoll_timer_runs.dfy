/** The life of an epoll timer among others: between its creation and its destruction the same loop
    opens, closes and recycles other descriptors, and creates, starts, stops and destroys other watchers
    and timers. */
module EpollTimerRuns {
  import opened Growable
  import opened Options
  import opened Epoll
  import opened EpollTimer
  import O = Ownership

  /** What the timer holds in state s: its struct and cell, a watcher on its timerfd, which is open, is
      its own `file`, and has no other watcher's entry in the kernel set. */
  ghost predicate Held(s: State, t: Timer, file: nat)
  {
    && Inv(s)
    && t.watcher in s.watchers && s.watchers[t.watcher].fd == t.fd && s.watchers[t.watcher].active == t.active
    && (t.active ==> s.watchers[t.watcher].file == file)
    && t.fd in s.files && s.files[t.fd] == file
    && (t.fd in s.kernel ==> s.kernel[t.fd] == t.watcher)
    && Kept(s, t.block) && Kept(s, t.cell) && t.block != t.cell
  }

  /** An allocation that is neither a watcher nor a watcher's platform_data. */
  ghost predicate Kept(s: State, b: nat)
  {
    b in s.heap && b !in s.watchers && forall w <- s.watchers :: s.watchers[w].data != Some(b)
  }

  /** Every DEL from position `start` of the log on that was issued for the timer's watcher hit the
      timerfd's number while it denoted the timer's own file. */
  ghost predicate DelsHitOwn(dels: seq<Del>, start: nat, t: Timer, file: nat)
  {
    start <= |dels| && forall k :: start <= k < |dels| && dels[k].watcher == t.watcher ==> dels[k] == Del(t.fd, t.watcher, Some(file))
  }

  /** A step of the loop that is not about the timer: neither its watcher nor its number is used. */
  predicate Elsewhere(s: State, t: Timer, step: Step)
  {
    match step
    case OpenStep(_) => true
    case CloseStep(fd) => fd != t.fd
    case CreateStep(fd, _, _, _, _) => fd != t.fd
    case StartStep(w, _) => w != t.watcher && (w in s.watchers ==> s.watchers[w].fd != t.fd)
    case StopStep(w) => w != t.watcher
    case UpdateStep(w) => w != t.watcher
    case DestroyStep(w) => w != t.watcher
  }

  /* ---------------- what other steps leave alone ---------------- */

  /** The DELs that were added are of watcher w. */
  ghost predicate DelsOf(before: seq<Del>, dels: seq<Del>, w: nat)
  {
    |before| <= |dels| && dels[..|before|] == before && forall k :: |before| <= k < |dels| ==> dels[k].watcher == w
  }

  lemma DelsOfOther(before: seq<Del>, dels: seq<Del>, w: nat, start: nat, t: Timer, file: nat)
    requires DelsOf(before, dels, w) && w != t.watcher && DelsHitOwn(before, start, t, file)
    ensures DelsHitOwn(dels, start, t, file)
  {
    forall k | start <= k < |dels| && dels[k].watcher == t.watcher ensures dels[k] == Del(t.fd, t.watcher, Some(file)) {
      assert dels[..|before|][k] == before[k];
    }
  }

  lemma DelsJoin(a: seq<Del>, b: seq<Del>, c: seq<Del>, w: nat)
    requires DelsOf(a, b, w) && DelsOf(b, c, w)
    ensures DelsOf(a, c, w)
  {
    assert c[..|a|] == c[..|b|][..|a|];
    forall k | |a| <= k < |c| ensures c[k].watcher == w {
      assert k < |b| ==> c[..|b|][k] == b[k];
    }
  }

  lemma DelsAre(a: seq<Del>, b: seq<Del>, d: Del)
    requires b == a || b == a + [d]
    ensures DelsOf(a, b, d.watcher)
  {
  }

  lemma InitDelsAre(s: State, w: nat, luck: Luck, listMem: bool)
    requires w in s.watchers
    ensures DelsOf(s.dels, Init(s, w, luck, listMem).0.dels, w)
  {
    var (s1, code) := Register(s, w, luck);
    RegisterDels(s, w, luck);
    RegisterSpares(s, w, luck);
    hide Register, Unregister, DelsOf;
    DelsAre(s.dels, s1.dels, Del(s.watchers[w].fd, w, FileAt(s, s.watchers[w].fd)));
    UnregisterDels(s1, w);
    DelsAre(s1.dels, Unregister(s1, w).0.dels, Del(s1.watchers[w].fd, w, FileAt(s1, s1.watchers[w].fd)));
    DelsJoin(s.dels, s1.dels, Unregister(s1, w).0.dels, w);
  }

  lemma RegisterSpares(s: State, w: nat, luck: Luck)
    requires w in s.watchers
    ensures w in Register(s, w, luck).0.watchers
  {
  }

  lemma CreateDelsAre(s: State, fd: int, hasCallback: bool, structMem: bool, luck: Luck, listMem: bool)
    ensures DelsOf(s.dels, Create(s, fd, hasCallback, structMem, luck, listMem).0.dels, s.nextBlock)
  {
    hide Init, DelsOf;
    var w := s.nextBlock;
    if !structMem {
      assert DelsOf(s.dels, s.dels, w) by {
        DelsAre(s.dels, s.dels, Del(0, w, None));
      }
    }
    InitDelsAre(SetWatcher(s.(heap := s.heap + {w}, nextBlock := w + 1), w, Watcher(fd, hasCallback, true, None, 0)), w, luck, listMem);
  }

  lemma StopDelsAre(s: State, w: nat)
    requires w in s.watchers
    ensures w in Stop(s, w).0.watchers && DelsOf(s.dels, Stop(s, w).0.dels, w)
  {
    StopDels(s, w);
    UnregisterDels(SetActive(s, w, false), w);
    DelsAre(s.dels, Stop(s, w).0.dels, Del(s.watchers[w].fd, w, FileAt(s, s.watchers[w].fd)));
    hide Unregister, DelsOf;
  }

  lemma DestroyDelsAre(s: State, w: nat)
    requires w in s.watchers
    ensures DelsOf(s.dels, Destroy(s, w).dels, w)
  {
    StopDelsAre(s, w);
    var s1 := Stop(s, w).0;
    UnregisterDels(s1, w);
    DelsAre(s1.dels, Unregister(s1, w).0.dels, Del(s1.watchers[w].fd, w, FileAt(s1, s1.watchers[w].fd)));
    DelsJoin(s.dels, s1.dels, Unregister(s1, w).0.dels, w);
    hide Stop, Unregister, DelsOf;
  }

  lemma StartDelsAre(s: State, w: nat, luck: Luck)
    requires w in s.watchers
    ensures DelsOf(s.dels, Start(s, w, luck).0.dels, w)
  {
    StartDels(s, w, luck);
    DelsAre(s.dels, Start(s, w, luck).0.dels, Del(s.watchers[w].fd, w, FileAt(s, s.watchers[w].fd)));
  }

  /** State u is s but for watcher w, its platform_data, and the kernel entry of number fd. */
  ghost predicate Beside(s: State, u: State, w: nat, fd: int)
  {
    && u.files == s.files
    && (forall v <- s.watchers | v != w :: v in u.watchers && u.watchers[v] == s.watchers[v])
    && (forall v <- u.watchers | v != w :: v in s.watchers)
    && (w in u.watchers ==> w in s.watchers || w >= s.nextBlock)
    && (w in u.watchers && u.watchers[w].data.Some? ==>
          u.watchers[w].data.value >= s.nextBlock || (w in s.watchers && u.watchers[w].data == s.watchers[w].data))
    && (forall b <- s.heap :: b in u.heap || (w in s.watchers && (b == w || s.watchers[w].data == Some(b))))
    && (forall k <- u.kernel | k != fd :: k in s.kernel && u.kernel[k] == s.kernel[k])
  }

  lemma BesideKeepsHeld(s: State, u: State, t: Timer, file: nat, w: nat, fd: int)
    requires Held(s, t, file) && Inv(u) && Beside(s, u, w, fd) && w != t.watcher && fd != t.fd
    ensures Held(u, t, file)
  {
    BelowNext(s);
    hide Inv;
  }

  lemma BelowNext(s: State)
    requires Inv(s)
    ensures forall b <- s.heap :: b < s.nextBlock
    ensures forall w <- s.watchers :: w in s.heap
  {
  }

  lemma CreateKeepsHeld(s: State, t: Timer, file: nat, fd: int, hasCallback: bool, structMem: bool, luck: Luck, listMem: bool)
    requires Held(s, t, file) && fd !in s.kernel && fd != t.fd
    ensures Held(Create(s, fd, hasCallback, structMem, luck, listMem).0, t, file)
  {
    hide Inv, Create, Evict, Held;
    var (u, made) := Create(s, fd, hasCallback, structMem, luck, listMem);
    HeldIsInv(s, t, file);
    CreateEffect(s, fd, hasCallback, structMem, luck, listMem);
    BelowNext(s);
    assert Beside(s, u, s.nextBlock, fd);
    BesideKeepsHeld(s, u, t, file, s.nextBlock, fd);
  }

  lemma HeldIsInv(s: State, t: Timer, file: nat)
    requires Held(s, t, file)
    ensures Inv(s) && t.watcher in s.watchers && t.watcher < s.nextBlock && t.cell != t.block
    ensures t.fd !in O.Drop(s.kernel, t.watcher)
  {
  }

  lemma StartKeepsHeld(s: State, t: Timer, file: nat, w: nat, luck: Luck)
    requires Held(s, t, file) && Enabled(s, StartStep(w, luck)) && w != t.watcher && s.watchers[w].fd != t.fd
    ensures Held(Start(s, w, luck).0, t, file)
  {
    hide Inv, Start, Evict, Held;
    HeldIsInv(s, t, file);
    if s.watchers[w].active {
      assert Start(s, w, luck).0 == s by {
        ActiveStart(s, w, luck);
      }
    } else {
      StartEffect(s, w, luck);
      BelowNext(s);
      assert Beside(s, Start(s, w, luck).0, w, s.watchers[w].fd);
      BesideKeepsHeld(s, Start(s, w, luck).0, t, file, w, s.watchers[w].fd);
    }
  }

  lemma StopKeepsHeld(s: State, t: Timer, file: nat, w: nat)
    requires Held(s, t, file) && w in s.watchers && w != t.watcher
    ensures Held(Stop(s, w).0, t, file)
  {
    hide Inv, Stop, Stuck, Held;
    HeldIsInv(s, t, file);
    StopEffect(s, w);
    StopFrame(s, w) by {
      InvIsMemory(s);
    }
    assert Beside(s, Stop(s, w).0, w, t.fd + 1);
    BesideKeepsHeld(s, Stop(s, w).0, t, file, w, t.fd + 1);
  }

  lemma InvIsMemory(s: State)
    requires Inv(s)
    ensures Memory(s)
  {
  }

  lemma DestroyKeepsHeld(s: State, t: Timer, file: nat, w: nat)
    requires Held(s, t, file) && w in s.watchers && w != t.watcher
    ensures Held(Destroy(s, w), t, file)
  {
    hide Inv, Destroy, Stuck, Held;
    HeldIsInv(s, t, file);
    DestroyEffect(s, w);
    assert Beside(s, Destroy(s, w), w, t.fd + 1);
    BesideKeepsHeld(s, Destroy(s, w), t, file, w, t.fd + 1);
  }

  lemma OtherKeepsHeld(s: State, t: Timer, file: nat, step: Step)
    requires Held(s, t, file) && Enabled(s, step) && Elsewhere(s, t, step)
    ensures Held(Next(s, step), t, file)
  {
    match step
    case OpenStep(fd) => OpenKeepsInv(s, fd);
    case CloseStep(fd) => CloseKeepsInv(s, fd);
    case CreateStep(fd, hasCallback, structMem, luck, listMem) => CreateKeepsHeld(s, t, file, fd, hasCallback, structMem, luck, listMem);
    case StartStep(w, luck) => StartKeepsHeld(s, t, file, w, luck);
    case StopStep(w) => StopKeepsHeld(s, t, file, w);
    case UpdateStep(w) =>
      UpdateEffect(s, w);
      UpdateIsNoChange(s, w);
    case DestroyStep(w) => DestroyKeepsHeld(s, t, file, w);
  }

  /** An update of a watcher that owns its number changes nothing. */
  lemma UpdateIsNoChange(s: State, w: nat)
    requires Inv(s) && Enabled(s, UpdateStep(w))
    ensures Update(s, w).0 == s
  {
    UpdateEffect(s, w);
  }

  lemma OtherKeepsDels(s: State, t: Timer, file: nat, start: nat, step: Step)
    requires Held(s, t, file) && Enabled(s, step) && Elsewhere(s, t, step) && DelsHitOwn(s.dels, start, t, file)
    ensures DelsHitOwn(Next(s, step).dels, start, t, file)
  {
    BelowNext(s);
    match step
    case OpenStep(_) =>
    case CloseStep(_) =>
    case CreateStep(fd, hasCallback, structMem, luck, listMem) =>
      CreateDelsAre(s, fd, hasCallback, structMem, luck, listMem);
      DelsOfOther(s.dels, Next(s, step).dels, s.nextBlock, start, t, file);
    case StartStep(w, luck) =>
      StartDelsAre(s, w, luck);
      DelsOfOther(s.dels, Next(s, step).dels, w, start, t, file);
    case StopStep(w) =>
      StopDelsAre(s, w);
      DelsOfOther(s.dels, Next(s, step).dels, w, start, t, file);
    case UpdateStep(w) => UpdateIsNoChange(s, w);
    case DestroyStep(w) =>
      DestroyDelsAre(s, w);
      DelsOfOther(s.dels, Next(s, step).dels, w, start, t, file);
  }

  /* ---------------- the timer's own operations ---------------- */

  lemma HeldOwns(s: State, t: Timer, file: nat)
    requires Held(s, t, file)
    ensures t.active ==> Owns(s, t.fd, t.watcher) && !Stuck(s, t.watcher)
    ensures !t.active ==> t.fd !in s.kernel
    ensures FileAt(s, t.fd) == Some(file)
  {
    if t.fd in s.kernel {
      assert Owns(s, t.fd, s.kernel[t.fd]);
    }
  }

  lemma OwnDelsAre(before: seq<Del>, dels: seq<Del>, start: nat, t: Timer, file: nat)
    requires dels == before || dels == before + [Del(t.fd, t.watcher, Some(file))]
    requires DelsHitOwn(before, start, t, file)
    ensures DelsHitOwn(dels, start, t, file)
  {
  }

  lemma OwnStart(s: State, t: Timer, file: nat, start: nat, luck: Luck)
    requires Held(s, t, file) && !t.active && DelsHitOwn(s.dels, start, t, file)
    ensures var (u, code) := Start(s, t.watcher, luck);
            Held(u, t.(active := code.Ok?), file) && DelsHitOwn(u.dels, start, t, file)
  {
    hide Inv, Start, Evict, DelsHitOwn;
    HeldOwns(s, t, file);
    StartEffect(s, t.watcher, luck);
    StartDels(s, t.watcher, luck);
    OwnDelsAre(s.dels, Start(s, t.watcher, luck).0.dels, start, t, file);
    SameDels(Start(s, t.watcher, luck).0.dels, start, t, file);
    BelowNext(s);
  }

  lemma OwnStop(s: State, t: Timer, file: nat, start: nat)
    requires Held(s, t, file) && t.active && DelsHitOwn(s.dels, start, t, file)
    ensures var (u, code) := Stop(s, t.watcher);
            code.Ok? && Held(u, t.(active := false), file) && DelsHitOwn(u.dels, start, t, file)
            && u.watchers - {t.watcher} == s.watchers - {t.watcher} && u.list == s.list && u.files == s.files
            && u.kernel == O.Drop(s.kernel, t.watcher) && u.heap == s.heap - Block(s.watchers[t.watcher].data)
  {
    hide Inv, Stop, Stuck, DelsHitOwn;
    HeldOwns(s, t, file);
    StopEffect(s, t.watcher);
    StopSucceeds(s, t.watcher);
    StopDels(s, t.watcher);
    OwnDelsAre(s.dels, Stop(s, t.watcher).0.dels, start, t, file);
    SameDels(Stop(s, t.watcher).0.dels, start, t, file);
  }

  lemma OwnKeepsHeld(s: State, t: Timer, file: nat, start: nat, op: Op)
    requires Held(s, t, file) && DelsHitOwn(s.dels, start, t, file)
    ensures var (u, t1) := Operate(s, t, op); Held(u, t1, file) && DelsHitOwn(u.dels, start, t1, file)
  {
    hide Held, DelsHitOwn, Start, Stop;
    HeldIsInv(s, t, file);
    match op
    case StartTimer(armed, luck) =>
      if !t.active && armed {
        OwnStart(s, t, file, start, luck);
        SameDels(Start(s, t.watcher, luck).0.dels, start, t, file);
      } else {
        assert Operate(s, t, op) == (s, t);
      }
    case StopTimer(disarmed) =>
      if t.active && disarmed {
        OwnStop(s, t, file, start);
        SameDels(Stop(s, t.watcher).0.dels, start, t, file);
      } else {
        assert Operate(s, t, op) == (s, t);
      }
  }

  lemma SameDels(dels: seq<Del>, start: nat, t: Timer, file: nat)
    requires DelsHitOwn(dels, start, t, file)
    ensures forall active :: DelsHitOwn(dels, start, t.(active := active), file)
  {
  }

  /* ---------------- destroying ---------------- */

  lemma FreeKept(s: State, b: nat)
    requires Inv(s) && Kept(s, b)
    ensures Inv(Free(s, Some(b))) && Free(s, Some(b)) == s.(heap := s.heap - {b})
  {
    var u := Free(s, Some(b));
    forall fd <- u.kernel ensures Owns(u, fd, u.kernel[fd]) {
      assert Owns(s, fd, s.kernel[fd]);
    }
    forall v <- u.watchers | Owns(u, u.watchers[v].fd, v) ensures u.watchers[v].fd in u.kernel && u.kernel[u.watchers[v].fd] == v {
      assert Owns(s, s.watchers[v].fd, v);
    }
  }

  /** State u is s without the timer, and with all the rest. */
  ghost predicate Released(s: State, u: State, t: Timer)
    requires t.watcher in s.watchers
  {
    && Inv(u) && u.files == s.files - {t.fd} && u.kernel == O.Drop(s.kernel, t.watcher)
    && u.watchers == s.watchers - {t.watcher} && u.list == Without(s.list, t.watcher)
    && u.heap == s.heap - Block(s.watchers[t.watcher].data) - {t.watcher} - {t.cell} - {t.block}
  }

  lemma DestroyHeldWatcher(s: State, t: Timer, file: nat, start: nat)
    requires Held(s, t, file) && DelsHitOwn(s.dels, start, t, file)
    ensures var u := Destroy(s, t.watcher);
            && Inv(u) && Kept(u, t.cell) && Kept(u, t.block) && DelsHitOwn(u.dels, start, t, file)
            && u.files == s.files && u.kernel == O.Drop(s.kernel, t.watcher) && u.watchers == s.watchers - {t.watcher}
            && u.list == Without(s.list, t.watcher) && u.heap == s.heap - Block(s.watchers[t.watcher].data) - {t.watcher}
  {
    hide Inv, Destroy, Stuck, DelsHitOwn;
    HeldOwns(s, t, file);
    HeldNotStuck(s, t, file);
    DestroyEffect(s, t.watcher);
    DestroyDelsHitOwn(s, t, file, start);
  }

  lemma HeldNotStuck(s: State, t: Timer, file: nat)
    requires Held(s, t, file)
    ensures !Stuck(s, t.watcher)
  {
    HeldOwns(s, t, file);
  }

  lemma DestroyDelsHitOwn(s: State, t: Timer, file: nat, start: nat)
    requires Held(s, t, file) && DelsHitOwn(s.dels, start, t, file)
    ensures DelsHitOwn(Destroy(s, t.watcher).dels, start, t, file)
  {
    var w := t.watcher;
    StopDels(s, w);
    UnregisterDels(SetActive(s, w, false), w);
    var s1 := Stop(s, w).0;
    OwnDelsAre(s.dels, s1.dels, start, t, file);
    UnregisterDels(s1, w);
    OwnDelsAre(s1.dels, Unregister(s1, w).0.dels, start, t, file);
    hide Unregister, DelsHitOwn, Inv;
  }

  lemma DestroyReleasesHeld(s: State, t: Timer, file: nat, start: nat, disarmed: bool)
    requires Held(s, t, file) && DelsHitOwn(s.dels, start, t, file)
    ensures t.watcher in s.watchers
    ensures Released(s, TimerDestroy(s, t, disarmed), t) && DelsHitOwn(TimerDestroy(s, t, disarmed).dels, start, t, file)
  {
    hide Held, DelsHitOwn, Destroy, Stop, Inv, Kept;
    HeldIsInv(s, t, file);
    var (s1, t1) := Operate(s, t, StopTimer(disarmed));
    OwnKeepsHeld(s, t, file, start, StopTimer(disarmed));
    StoppedOrNot(s, t, file, start, disarmed);
    DestroyHeldWatcher(s1, t1, file, start);
    SameDels(Destroy(s1, t.watcher).dels, start, t1, file);
    LastFrees(Destroy(s1, t.watcher), t);
    assert O.Drop(s.kernel, t.watcher) - {t.fd} == O.Drop(s.kernel, t.watcher);
  }

  lemma StoppedOrNot(s: State, t: Timer, file: nat, start: nat, disarmed: bool)
    requires Held(s, t, file) && DelsHitOwn(s.dels, start, t, file)
    ensures var (s1, t1) := Operate(s, t, StopTimer(disarmed));
            && t1 == t.(active := t1.active) && t.watcher in s1.watchers
            && s1.watchers - {t.watcher} == s.watchers - {t.watcher} && s1.list == s.list && s1.files == s.files
            && O.Drop(s1.kernel, t.watcher) == O.Drop(s.kernel, t.watcher)
            && s1.heap - Block(s1.watchers[t.watcher].data) == s.heap - Block(s.watchers[t.watcher].data)
  {
    if t.active && disarmed {
      OwnStop(s, t, file, start);
      StoppedHasNoData(s, t, file);
      hide Held, Stop;
      var s1 := Stop(s, t.watcher).0;
      assert O.Drop(s1.kernel, t.watcher) == s1.kernel;
      assert s1.heap - Block(None) == s1.heap;
    }
  }

  lemma StoppedHasNoData(s: State, t: Timer, file: nat)
    requires Held(s, t, file) && t.active
    ensures var u := Stop(s, t.watcher).0; t.watcher in u.watchers && u.watchers[t.watcher].data.None?
  {
    HeldOwns(s, t, file);
    StopSucceeds(s, t.watcher);
  }

  lemma LastFrees(s: State, t: Timer)
    requires Inv(s) && Kept(s, t.cell) && Kept(s, t.block) && t.cell != t.block
    ensures var u := Free(Free(Close(s, t.fd), Some(t.cell)), Some(t.block));
            Inv(u) && u == s.(files := s.files - {t.fd}, kernel := s.kernel - {t.fd}, heap := s.heap - {t.cell} - {t.block})
  {
    CloseKeepsInv(s, t.fd);
    FreeKept(Close(s, t.fd), t.cell);
    FreeKept(Free(Close(s, t.fd), Some(t.cell)), t.block);
    hide Inv;
  }

  /* ---------------- the whole life ---------------- */

  /** What happens next on the loop: a step that is not about the timer, or an operation of the timer. */
  datatype Turn = Other(step: Step) | Own(op: Op)

  predicate MayTake(s: State, t: Timer, turn: Turn)
  {
    match turn
    case Other(step) => Enabled(s, step) && Elsewhere(s, t, step)
    case Own(_) => t.watcher in s.watchers
  }

  function TakeTurn(s: State, t: Timer, turn: Turn): (r: (State, Timer))
    requires MayTake(s, t, turn)
    ensures r.1 == t.(active := r.1.active)
  {
    match turn
    case Other(step) => (Next(s, step), t)
    case Own(op) => Operate(s, t, op)
  }

  predicate MayTakeAll(s: State, t: Timer, turns: seq<Turn>)
    decreases |turns|
  {
    turns == [] || (MayTake(s, t, turns[0]) && MayTakeAll(TakeTurn(s, t, turns[0]).0, TakeTurn(s, t, turns[0]).1, turns[1..]))
  }

  function TakeAll(s: State, t: Timer, turns: seq<Turn>): (r: (State, Timer))
    requires MayTakeAll(s, t, turns)
    ensures r.1 == t.(active := r.1.active)
    decreases |turns|
  {
    if turns == [] then (s, t) else TakeAll(TakeTurn(s, t, turns[0]).0, TakeTurn(s, t, turns[0]).1, turns[1..])
  }

  lemma TurnKeepsHeld(s: State, t: Timer, file: nat, start: nat, turn: Turn)
    requires Held(s, t, file) && DelsHitOwn(s.dels, start, t, file) && MayTake(s, t, turn)
    ensures var (u, t1) := TakeTurn(s, t, turn); Held(u, t1, file) && DelsHitOwn(u.dels, start, t1, file)
  {
    match turn
    case Other(step) =>
      OtherKeepsHeld(s, t, file, step);
      OtherKeepsDels(s, t, file, start, step);
    case Own(op) => OwnKeepsHeld(s, t, file, start, op);
  }

  lemma {:induction false} TurnsKeepHeld(s: State, t: Timer, file: nat, start: nat, turns: seq<Turn>)
    requires Held(s, t, file) && DelsHitOwn(s.dels, start, t, file) && MayTakeAll(s, t, turns)
    ensures var (u, t1) := TakeAll(s, t, turns); Held(u, t1, file) && DelsHitOwn(u.dels, start, t1, file)
    decreases |turns|
  {
    hide Held, DelsHitOwn, MayTake, TakeTurn;
    if turns != [] {
      TurnKeepsHeld(s, t, file, start, turns[0]);
      TurnsKeepHeld(TakeTurn(s, t, turns[0]).0, TakeTurn(s, t, turns[0]).1, file, start, turns[1..]);
    }
  }

  /** A new timer holds what it should. */
  lemma CreatedIsHeld(s0: State, fd: int, c: Chance)
    requires Inv(s0) && fd !in s0.files && TimerCreate(s0, fd, c).1.Some?
    ensures var (s, t) := TimerCreate(s0, fd, c);
            t.value.fd == fd && Held(s, t.value, s0.nextFile) && DelsHitOwn(s.dels, |s0.dels|, t.value, s0.nextFile)
  {
    CreateHolds(s0, fd, c);
    var (s, t) := TimerCreate(s0, fd, c);
    hide TimerCreate;
    ShapeIsHeld(s0, s, t.value);
  }

  lemma ShapeIsHeld(s0: State, s: State, t: Timer)
    requires Inv(s0) && Holds(s0, s, t)
    ensures Held(s, t, s0.nextFile) && DelsHitOwn(s.dels, |s0.dels|, t, s0.nextFile)
  {
    hide Evict, Inv;
    AllocationsAreHeld(s0);
  }

  lemma AllocationsAreHeld(s0: State)
    requires Inv(s0)
    ensures forall w <- s0.watchers :: w in s0.heap && (s0.watchers[w].data.Some? ==> s0.watchers[w].data.value in s0.heap)
  {
  }

  /** The life of an epoll timer among others.  Create it, then let any turns follow, in which the timer
      is started and stopped with any outcome while the loop does anything else with other descriptors
      and watchers, and destroy it: the timerfd, struct, cell, watcher and platform_data are gone and
      nothing was freed twice; all other files, watchers, kernel entries, list positions and allocations
      are what they were just before; and every DEL that was ever issued for the timer's watcher hit the
      timerfd's number while it denoted the timer's own file. */
  lemma LifecycleAmongOthers(s0: State, fd: int, c: Chance, turns: seq<Turn>, disarmed: bool)
    requires Inv(s0) && fd !in s0.files && TimerCreate(s0, fd, c).1.Some?
    requires MayTakeAll(TimerCreate(s0, fd, c).0, TimerCreate(s0, fd, c).1.value, turns)
    ensures var (s1, t) := TimerCreate(s0, fd, c);
            var (s2, t2) := TakeAll(s1, t.value, turns);
            && t2.watcher in s2.watchers
            && var s3 := TimerDestroy(s2, t2, disarmed);
               Released(s2, s3, t2) && !s3.fault && DelsHitOwn(s3.dels, |s0.dels|, t2, s0.nextFile)
  {
    CreatedIsHeld(s0, fd, c);
    var (s1, t) := TimerCreate(s0, fd, c);
    TurnsKeepHeld(s1, t.value, s0.nextFile, |s0.dels|, turns);
    var (s2, t2) := TakeAll(s1, t.value, turns);
    hide TimerCreate, TakeAll, MayTakeAll, TimerDestroy, Held, DelsHitOwn;
    DestroyReleasesHeld(s2, t2, s0.nextFile, |s0.dels|, disarmed);
  }
}
