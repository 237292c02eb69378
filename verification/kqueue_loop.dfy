/** The kqueue backend in place, each method proved against its specification in Kqueue. */
module KqueueLoop {
  import opened Options
  import opened Arrays
  import opened Kqueue

  class Loop {
    const table: RegistrationTable
    var watchers: map<nat, Watcher>
    var nextWatcher: nat
    var files: map<int, nat>
    var nextFile: nat
    var kernel: Kernel

    constructor ()
      ensures Valid() && fresh(Footprint()) && State() == START
    {
      table := new RegistrationTable();
      watchers, nextWatcher, files, nextFile, kernel := map[], 0, map[], 0, map[];
    }

    ghost predicate Valid()
      reads this, table
    {
      table.Valid()
    }

    ghost function Footprint(): set<object>
      reads this, table
    {
      {this, table, table.registrations}
    }

    ghost function State(): State
      reads this, table, table.registrations
      requires Valid()
    {
      Kqueue.State(files, nextFile, kernel, table.Records(), table.registrations.Length, watchers, nextWatcher)
    }

    /** kevent with a change list: apply changes until one fails. */
    method Kevent(changes: seq<Change>, limit: nat) returns (ok: bool)
      requires Valid()
      modifies `kernel
      ensures Valid() && State() == old(State()).(kernel := kernel)
      ensures (kernel, ok) == Submit(old(kernel), files, changes, limit)
    {
      for i := 0 to |changes|
        invariant Valid() && State() == old(State()).(kernel := kernel) && i <= limit
        invariant Submit(kernel, files, changes[i..], limit - i) == Submit(old(kernel), files, changes, limit)
      {
        assert changes[i..][1..] == changes[i + 1..];
        if i == limit || !Accepts(kernel, files, changes[i]) {
          return false;
        }
        kernel := ApplyChange(kernel, changes[i]);
      }
      return true;
    }

    /** The registration is in the kernel: record it, or undo it when the array cannot grow. */
    method Track(w: nat, growMem: bool) returns (code: Code)
      requires Valid() && w in watchers
      modifies `kernel, `watchers, table, table.registrations
      ensures Valid() && fresh(Footprint() - old(Footprint()))
      ensures (State(), code) == Kqueue.Track(old(State()), w, growMem)
    {
      var fd := watchers[w].fd;
      var room := table.Reserve(growMem);
      if !room {
        var _ := Kevent(Deletes(fd, watchers[w].mask), 2);
        return NoMemory;
      }
      table.Append(fd, w);
      watchers := watchers[w := watchers[w].(data := true, file := if fd in files then Some(files[fd]) else None)];
      return Ok;
    }

    method Register(w: nat, luck: Luck) returns (code: Code)
      requires Valid() && w in watchers
      modifies `kernel, `watchers, table, table.registrations
      ensures Valid() && fresh(Footprint() - old(Footprint()))
      ensures w in watchers && (State(), code) == Kqueue.Register(old(State()), w, luck)
    {
      if !luck.dataMem {
        return NoMemory;
      }
      table.EvictStale(watchers[w].fd, w);
      var ok := Kevent(Adds(watchers[w].fd, watchers[w].mask, w), luck.applied);
      if !ok {
        return SystemError;
      }
      code := Track(w, luck.growMem);
    }

    method Unregister(w: nat) returns (code: Code)
      requires Valid() && w in watchers
      modifies `kernel, `watchers, table`count, table.registrations
      ensures Valid() && (State(), code) == Kqueue.Unregister(old(State()), w)
    {
      if !watchers[w].data {
        return InvalidArg;
      }
      var i := table.Find(w);
      if i < table.count {
        var _ := Kevent(Deletes(watchers[w].fd, watchers[w].mask), 2);
        table.RemoveAt(i);
      }
      watchers := watchers[w := watchers[w].(data := false)];
      return Ok;
    }

    /** pd_watcher_update */
    method Update(w: nat, mask: Mask, applied: nat) returns (code: Code)
      requires Valid() && w in watchers
      modifies `kernel, `watchers
      ensures Valid() && (State(), code) == Kqueue.Update(old(State()), w, mask, applied)
    {
      if !watchers[w].active {
        return WatcherStopped;
      }
      watchers := watchers[w := watchers[w].(mask := mask)];
      code := UpdateBackend(w, mask, applied);
    }

    /** kqueue_watcher_update */
    method UpdateBackend(w: nat, mask: Mask, applied: nat) returns (code: Code)
      requires Valid() && w in watchers
      modifies `kernel
      ensures Valid() && (State(), code) == Kqueue.UpdateBackend(old(State()), w, mask, applied)
    {
      var x := watchers[w];
      if !x.data {
        return InvalidArg;
      }
      var changes: seq<Change> := [];
      if x.mask.read && !mask.read {
        changes := changes + [Disable(x.fd, Read)];
      }
      if x.mask.write && !mask.write {
        changes := changes + [Disable(x.fd, Write)];
      }
      if mask.read && !x.mask.read {
        changes := changes + [Add(x.fd, Read, w)];
      }
      if mask.write && !x.mask.write {
        changes := changes + [Add(x.fd, Write, w)];
      }
      assert changes == Changes(x.fd, x.mask, mask, w);
      if |changes| > 0 {
        var ok := Kevent(changes, applied);
        if !ok {
          return SystemError;
        }
      }
      return Ok;
    }

    /* ---------------- watcher.c ---------------- */

    /** pd_watcher_create */
    method Create(fd: int, mask: Mask, structMem: bool, luck: Luck, listMem: bool) returns (made: Option<nat>)
      requires Valid()
      modifies Footprint()
      ensures Valid() && fresh(Footprint() - old(Footprint()))
      ensures (State(), made) == Kqueue.Create(old(State()), fd, mask, structMem, luck, listMem)
    {
      hide Kqueue.Register, Kqueue.Unregister;
      if !structMem {
        return None;
      }
      var w := nextWatcher;
      watchers, nextWatcher := watchers[w := Watcher(fd, mask, true, false, None)], nextWatcher + 1;
      assert watchers == SetActive(Newborn(old(State()), fd, mask), w, true).watchers;
      var code := Register(w, luck);
      if !code.Ok? {
        watchers := watchers - {w};
        return None;
      }
      if !listMem {
        var _ := Unregister(w);
        watchers := watchers - {w};
        return None;
      }
      return Some(w);
    }

    /** pd_watcher_start */
    method Start(w: nat, luck: Luck) returns (code: Code)
      requires Valid() && w in watchers
      modifies Footprint()
      ensures Valid() && fresh(Footprint() - old(Footprint()))
      ensures (State(), code) == Kqueue.Start(old(State()), w, luck)
    {
      if watchers[w].active {
        return Ok;
      }
      watchers := watchers[w := watchers[w].(active := true)];
      code := Register(w, luck);
      if !code.Ok? {
        watchers := watchers[w := watchers[w].(active := false)];
      }
    }

    /** pd_watcher_stop */
    method Stop(w: nat) returns (code: Code)
      requires Valid() && w in watchers
      modifies `kernel, `watchers, table`count, table.registrations
      ensures Valid() && (State(), code) == Kqueue.Stop(old(State()), w)
    {
      if !watchers[w].active {
        return Ok;
      }
      watchers := watchers[w := watchers[w].(active := false)];
      code := Unregister(w);
      if !code.Ok? {
        watchers := watchers[w := watchers[w].(active := true)];
      }
    }

    /** pd_watcher_destroy */
    method Destroy(w: nat)
      requires Valid() && w in watchers
      modifies `kernel, `watchers, table`count, table.registrations
      ensures Valid() && State() == Kqueue.Destroy(old(State()), w)
    {
      var _ := Stop(w);
      var _ := Unregister(w);
      watchers := watchers - {w};
    }

    /** One step of a run. */
    method Perform(step: Step)
      requires Valid() && Inv(State()) && Enabled(State(), step)
      modifies Footprint()
      ensures Valid() && fresh(Footprint() - old(Footprint()))
      ensures State() == Next(old(State()), step) && Inv(State())
    {
      NextKeepsInv(State(), step);
      match step
      case OpenStep(fd) => files, nextFile := files[fd := nextFile], nextFile + 1;
      case CloseStep(fd) => files, kernel := files - {fd}, Shut(kernel, fd);
      case CreateStep(fd, mask, structMem, luck, listMem) =>
        var _ := Create(fd, mask, structMem, luck, listMem);
      case StartStep(w, luck) =>
        var _ := Start(w, luck);
      case StopStep(w) =>
        var _ := Stop(w);
      case DestroyStep(w) => Destroy(w);
    }
  }
}
