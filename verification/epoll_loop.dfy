/** The epoll backend in place: the loop whose arrays and fields epoll.c, watcher.c and timer.c update,
    method by method, each proved to take the state to the one that its specification gives. */
module EpollLoop {
  import opened Growable
  import opened Options
  import opened Arrays
  import opened Epoll
  import T = EpollTimer
  import B = EpollBatch

  /** pd_timer_t */
  class Timer {
    var block: nat
    var cell: nat
    var watcher: nat
    var fd: int
    var active: bool

    constructor (block: nat, cell: nat, watcher: nat, fd: int)
      ensures Value() == T.Timer(block, cell, watcher, fd, false)
    {
      this.block, this.cell, this.watcher, this.fd, active := block, cell, watcher, fd, false;
    }

    function Value(): T.Timer
      reads this
    {
      T.Timer(block, cell, watcher, fd, active)
    }
  }

  class Loop {
    const table: RegistrationTable
    const list: WatcherArray
    var watchers: map<nat, Watcher>
    var files: map<int, nat>
    var nextFile: nat
    var kernel: map<int, nat>
    var heap: set<nat>
    var nextBlock: nat
    ghost var dels: seq<Del>
    ghost var fault: bool

    constructor ()
      ensures Valid() && fresh(Footprint()) && State() == START
    {
      table := new RegistrationTable();
      list := new WatcherArray();
      watchers, files, nextFile, kernel, heap, nextBlock := map[], map[], 0, map[], {}, 0;
      dels, fault := [], false;
    }

    ghost predicate Valid()
      reads this, table, list
    {
      table.Valid() && list.Valid()
    }

    ghost function Footprint(): set<object>
      reads this, table, list
    {
      {this, table, list, table.registrations, list.watchers}
    }

    ghost function State(): State
      reads this, table, list, table.registrations, list.watchers
      requires Valid()
    {
      Epoll.State(files, nextFile, kernel, table.Records(), table.registrations.Length,
                  watchers, list.Elements(), list.watchers.Length, heap, nextBlock, dels, fault)
    }

    /* ---------------- the kernel and the allocator ---------------- */

    method Open(fd: int)
      requires Valid()
      modifies `files, `nextFile
      ensures Valid() && State() == Epoll.Open(old(State()), fd)
    {
      files, nextFile := files[fd := nextFile], nextFile + 1;
    }

    method Close(fd: int)
      requires Valid()
      modifies `files, `kernel
      ensures Valid() && State() == Epoll.Close(old(State()), fd)
    {
      files, kernel := files - {fd}, kernel - {fd};
    }

    method Alloc() returns (b: nat)
      requires Valid()
      modifies `heap, `nextBlock
      ensures Valid() && b == old(nextBlock) && State() == T.Alloc(old(State()))
    {
      b := nextBlock;
      heap, nextBlock := heap + {b}, nextBlock + 1;
    }

    method Free(p: Option<nat>)
      requires Valid()
      modifies `heap, `fault
      ensures Valid() && State() == Epoll.Free(old(State()), p)
    {
      if p.Some? {
        fault := fault || p.value !in heap;
        heap := heap - {p.value};
      } else {
        assert heap - Block(p) == heap;
      }
    }

    /** EPOLL_CTL_DEL */
    method Del(fd: int, w: nat) returns (ok: bool)
      requires Valid()
      modifies `kernel, `dels
      ensures Valid() && State() == KernelDel(old(State()), fd, w)
      ensures ok <==> !DelFails(old(State()), fd)
    {
      ok := fd !in files || fd in kernel;
      kernel := kernel - {fd};
      dels := dels + [Epoll.Del(fd, w, if fd in files then Some(files[fd]) else None)];
    }

    /* ---------------- epoll.c ---------------- */

    /** After a successful ADD: record the registration, or undo it. */
    method Track(w: nat, d: nat, luck: Luck) returns (code: Code)
      requires Valid() && w in watchers && watchers[w].fd in files
      modifies `kernel, `dels, `heap, `fault, `watchers, table, table.registrations
      ensures Valid() && fresh(Footprint() - old(Footprint()))
      ensures (State(), code) == Epoll.Track(old(State()), w, d, luck)
    {
      var fd := watchers[w].fd;
      var room := table.Reserve(luck.growMem);
      if !room {
        var _ := Del(fd, w);
        Free(Some(d));
        return NoMemory;
      }
      table.Append(fd, w);
      watchers := watchers[w := watchers[w].(data := Some(d), file := files[fd])];
      return Ok;
    }

    method Register(w: nat, luck: Luck) returns (code: Code)
      requires Valid() && w in watchers
      modifies Footprint()
      ensures Valid() && fresh(Footprint() - old(Footprint()))
      ensures (State(), code) == Epoll.Register(old(State()), w, luck)
    {
      hide Epoll.Track, Evict, FindStale;
      if !luck.dataMem {
        return NoMemory;
      }
      var d := Alloc();
      var fd := watchers[w].fd;
      table.EvictStale(fd, w);
      if fd !in files || fd in kernel || !luck.addOk {
        Free(Some(d));
        return SystemError;
      }
      kernel := kernel[fd := w];
      code := Track(w, d, luck);
    }

    method Unregister(w: nat) returns (code: Code)
      requires Valid() && w in watchers
      modifies `kernel, `dels, `heap, `fault, `watchers, table`count, table.registrations
      ensures Valid() && (State(), code) == Epoll.Unregister(old(State()), w)
    {
      var i := table.Find(w);
      if i < table.count {
        var ok := Del(watchers[w].fd, w);
        if !ok {
          return SystemError;
        }
        table.RemoveAt(i);
      }
      Free(watchers[w].data);
      watchers := watchers[w := watchers[w].(data := None)];
      return Ok;
    }

    method Update(w: nat) returns (code: Code)
      requires Valid() && w in watchers
      modifies `kernel
      ensures Valid() && (State(), code) == Epoll.Update(old(State()), w)
    {
      if !watchers[w].active {
        return WatcherStopped;
      }
      var fd := watchers[w].fd;
      if fd !in files || fd !in kernel {
        return SystemError;
      }
      kernel := kernel[fd := w];
      return Ok;
    }

    /* ---------------- watcher.c ---------------- */

    method FreeStruct(w: nat)
      requires Valid()
      modifies `watchers, `heap, `fault
      ensures Valid() && State() == Epoll.FreeStruct(old(State()), w)
    {
      watchers := watchers - {w};
      Free(Some(w));
    }

    /** pd_watcher_init */
    method Init(w: nat, luck: Luck, listMem: bool) returns (ok: bool)
      requires Valid() && w in watchers
      modifies Footprint()
      ensures Valid() && fresh(Footprint() - old(Footprint()))
      ensures (State(), ok) == Epoll.Init(old(State()), w, luck, listMem)
    {
      var code := Register(w, luck);
      if !code.Ok? {
        return false;
      }
      ok := list.Add(w, listMem);
      if !ok {
        var _ := Unregister(w);
      }
    }

    /** pd_watcher_create */
    method Create(fd: int, hasCallback: bool, structMem: bool, luck: Luck, listMem: bool) returns (made: Option<nat>)
      requires Valid()
      modifies Footprint()
      ensures Valid() && fresh(Footprint() - old(Footprint()))
      ensures (State(), made) == Epoll.Create(old(State()), fd, hasCallback, structMem, luck, listMem)
    {
      hide Epoll.Init;
      if !structMem {
        return None;
      }
      var w := Alloc();
      watchers := watchers[w := Watcher(fd, hasCallback, true, None, 0)];
      var ok := Init(w, luck, listMem);
      if !ok {
        FreeStruct(w);
        return None;
      }
      return Some(w);
    }

    /** pd_watcher_start */
    method Start(w: nat, luck: Luck) returns (code: Code)
      requires Valid() && w in watchers
      modifies Footprint()
      ensures Valid() && fresh(Footprint() - old(Footprint()))
      ensures (State(), code) == Epoll.Start(old(State()), w, luck)
    {
      if watchers[w].active {
        return Ok;
      }
      watchers := watchers[w := watchers[w].(active := true)];
      code := Register(w, luck);
      if !code.Ok? {
        watchers := watchers[w := watchers[w].(active := false)];
      }
    }

    /** pd_watcher_stop */
    method Stop(w: nat) returns (code: Code)
      requires Valid() && w in watchers
      modifies `kernel, `dels, `heap, `fault, `watchers, table`count, table.registrations
      ensures Valid() && (State(), code) == Epoll.Stop(old(State()), w)
    {
      if !watchers[w].active {
        return Ok;
      }
      watchers := watchers[w := watchers[w].(active := false)];
      code := Unregister(w);
      if !code.Ok? {
        watchers := watchers[w := watchers[w].(active := true)];
      }
    }

    /** pd_watcher_cleanup */
    method Cleanup(w: nat)
      requires Valid() && w in watchers
      modifies Footprint()
      ensures Valid() && Footprint() == old(Footprint())
      ensures State() == Epoll.Cleanup(old(State()), w)
    {
      var _ := Unregister(w);
      var _ := list.Remove(w);
    }

    /** pd_watcher_destroy */
    method Destroy(w: nat)
      requires Valid() && w in watchers
      modifies Footprint()
      ensures Valid() && Footprint() == old(Footprint())
      ensures State() == Epoll.Destroy(old(State()), w)
    {
      var _ := Stop(w);
      Cleanup(w);
      FreeStruct(w);
    }

    /* ---------------- runs and batches ---------------- */

    method Perform(step: Step)
      requires Valid() && Enabled(State(), step)
      modifies Footprint()
      ensures Valid() && fresh(Footprint() - old(Footprint()))
      ensures State() == Next(old(State()), step)
    {
      match step
      case OpenStep(fd) => Open(fd);
      case CloseStep(fd) => Close(fd);
      case CreateStep(fd, hasCallback, structMem, luck, listMem) =>
        var _ := Create(fd, hasCallback, structMem, luck, listMem);
      case StartStep(w, luck) =>
        var _ := Start(w, luck);
      case StopStep(w) =>
        var _ := Stop(w);
      case UpdateStep(w) =>
        var _ := Update(w);
      case DestroyStep(w) => Destroy(w);
    }

    /** A callback, as the steps that it takes. */
    method CallBack(script: seq<Step>)
      requires Valid() && B.Allowed(State(), script)
      modifies Footprint()
      ensures Valid() && fresh(Footprint() - old(Footprint()))
      ensures State() == B.RunScript(old(State()), script)
    {
      for k := 0 to |script|
        invariant Valid() && fresh(Footprint() - old(Footprint()))
        invariant B.Allowed(State(), script[k..]) && B.RunScript(State(), script[k..]) == B.RunScript(old(State()), script)
      {
        Perform(script[k]);
        assert script[k..][1..] == script[k + 1..];
      }
    }

    /** One entry of the batch; NULL is the eventfd. */
    method DispatchEntry(entry: Option<nat>, script: seq<Step>) returns (called: bool)
      requires Valid() && (entry.Some? ==> entry.value in watchers) && (B.Calls(State(), entry) ==> B.Allowed(State(), script))
      modifies Footprint()
      ensures Valid() && fresh(Footprint() - old(Footprint()))
      ensures called ==> entry.Some?
      ensures B.RunEntry(old(State()), entry, script) == B.Outcome(State(), if called then [entry.value] else [], false)
    {
      called := false;
      if entry.Some? && watchers[entry.value].hasCallback {
        called := true;
        CallBack(script);
      }
    }

    /** The batch of epoll_loop_run. */
    method RunBatch(batch: seq<Option<nat>>, scripts: seq<seq<Step>>) returns (calls: seq<nat>)
      requires Valid() && |scripts| == |batch| && B.AllAllowed(State(), batch, scripts)
      requires !B.RunBatch(State(), batch, scripts).touchedDead
      modifies Footprint()
      ensures Valid() && fresh(Footprint() - old(Footprint()))
      ensures B.RunBatch(old(State()), batch, scripts) == B.Outcome(State(), calls, false)
    {
      calls := [];
      ghost var whole := B.RunBatch(State(), batch, scripts);
      for k := 0 to |batch|
        invariant Valid() && fresh(Footprint() - old(Footprint()))
        invariant B.AllAllowed(State(), batch[k..], scripts[k..])
        invariant B.Outcome(State(), calls, false).Then(batch[k..], scripts[k..]) == whole
      {
        ghost var s := State();
        B.BatchStep(s, calls, batch, scripts, k);
        var called := DispatchEntry(batch[k], scripts[k]);
        calls := calls + if called then [batch[k].value] else [];
        assert B.RunEntry(s, batch[k], scripts[k]).state == State();
      }
    }

    /** On a batch of live entries, of whose callbacks none destroys the watcher of a later entry, the loop
        dereferences no dead watcher and runs the callback of each entry that has one exactly once. */
    method RunLiveBatch(batch: seq<Option<nat>>, scripts: seq<seq<Step>>) returns (calls: seq<nat>)
      requires Valid() && |scripts| == |batch| && B.AllAllowed(State(), batch, scripts)
      requires Inv(State()) && B.Live(State(), batch)
      requires forall j, k :: !B.DestroysLater(State(), batch, scripts, j, k)
      modifies Footprint()
      ensures Valid() && fresh(Footprint() - old(Footprint()))
      ensures Inv(State()) && calls == B.Expected(old(State()), batch)
    {
      B.LiveBatchRuns(State(), batch, scripts);
      calls := RunBatch(batch, scripts);
    }

    /* ---------------- timer.c ---------------- */

    /** epoll_timer_create */
    method Provide(fd: int, c: T.Chance) returns (parts: Option<(nat, nat)>)
      requires Valid()
      modifies Footprint()
      ensures Valid() && fresh(Footprint() - old(Footprint()))
      ensures (State(), parts) == T.Provide(old(State()), fd, c)
    {
      hide Epoll.Create, Epoll.Stop;
      if !c.fdOk {
        return None;
      }
      Open(fd);
      if !c.cellMem {
        Close(fd);
        return None;
      }
      var cell := Alloc();
      var w := Create(fd, c.callback, c.structMem, c.luck, c.listMem);
      if w.None? {
        Close(fd);
        Free(Some(cell));
        return None;
      }
      var _ := Stop(w.value);
      return Some((cell, w.value));
    }

    /** pd_timer_create */
    method TimerCreate(fd: int, c: T.Chance) returns (made: Timer?)
      requires Valid()
      modifies Footprint()
      ensures Valid() && fresh(Footprint() - old(Footprint())) && (made != null ==> fresh(made))
      ensures (State(), if made == null then None else Some(made.Value())) == T.TimerCreate(old(State()), fd, c)
    {
      if !c.timerMem {
        return null;
      }
      var block := Alloc();
      var parts := Provide(fd, c);
      if parts.None? {
        Free(Some(block));
        return null;
      }
      made := new Timer(block, parts.value.0, parts.value.1, fd);
    }

    method TimerStart(t: Timer, armed: bool, luck: Luck)
      requires Valid() && t.watcher in watchers
      modifies Footprint(), t`active
      ensures Valid() && fresh(Footprint() - old(Footprint()))
      ensures (State(), t.Value()) == T.Operate(old(State()), old(t.Value()), T.StartTimer(armed, luck))
    {
      if t.active {
        return;
      }
      t.active := true;
      if !armed {
        t.active := false;
        return;
      }
      var code := Start(t.watcher, luck);
      if !code.Ok? {
        t.active := false;
      }
    }

    method TimerStop(t: Timer, disarmed: bool)
      requires Valid() && t.watcher in watchers
      modifies Footprint(), t`active
      ensures Valid() && Footprint() == old(Footprint())
      ensures (State(), t.Value()) == T.Operate(old(State()), old(t.Value()), T.StopTimer(disarmed))
    {
      if !t.active {
        return;
      }
      t.active := false;
      if !disarmed {
        t.active := true;
        return;
      }
      var code := Stop(t.watcher);
      if !code.Ok? {
        t.active := true;
      }
    }

    method TimerDestroy(t: Timer, disarmed: bool)
      requires Valid() && t.watcher in watchers
      modifies Footprint(), t`active
      ensures Valid() && Footprint() == old(Footprint())
      ensures State() == T.TimerDestroy(old(State()), old(t.Value()), disarmed)
    {
      hide Epoll.Destroy, T.Operate;
      TimerStop(t, disarmed);
      Destroy(t.watcher);
      Close(t.fd);
      Free(Some(t.cell));
      Free(Some(t.block));
    }
  }
}
