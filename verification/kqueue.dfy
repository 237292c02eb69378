/** The kqueue backend's watchers (kqueue.c, watcher.c).  The kernel keys its entries by number and
    filter, and takes a list of changes per call, up to the first one that fails. */
module Kqueue {
  import opened Growable
  import opened Options
  import Arrays
  import O = Ownership

  datatype Filter = Read | Write

  /** The READ and WRITE bits of pd_event_t. */
  datatype Mask = Mask(read: bool, write: bool)
  {
    predicate Has(f: Filter) { match f case Read => read case Write => write }
  }

  /** pd_watcher_t; `data` says whether platform_data is set.  `file` is a history variable: the file,
      if any, that the number denoted when the watcher was last registered. */
  datatype Watcher = Watcher(fd: int, mask: Mask, active: bool, data: bool, file: Option<nat>)

  type Kernel = map<(int, Filter), nat>

  datatype State = State(
    files: map<int, nat>, nextFile: nat, kernel: Kernel,
    records: seq<Record>, capacity: nat, watchers: map<nat, Watcher>, nextWatcher: nat)

  const START := State(map[], 0, map[], [], 0, map[], 0)

  datatype Code = Ok | NoMemory | SystemError | InvalidArg | WatcherStopped

  /** Does calloc succeed, how many changes does the kernel apply before it refuses one for reasons of
      its own, and does the record array grow? */
  datatype Luck = Luck(dataMem: bool, applied: nat, growMem: bool)

  /* ---------------- the environment ---------------- */

  function Open(s: State, fd: int): State
  {
    s.(files := s.files[fd := s.nextFile], nextFile := s.nextFile + 1)
  }

  function Close(s: State, fd: int): State
  {
    s.(files := s.files - {fd}, kernel := Shut(s.kernel, fd))
  }

  /** Closing a number takes its filters with it. */
  function Shut(kernel: Kernel, fd: int): Kernel
  {
    map k | k in kernel && k.0 != fd :: kernel[k]
  }

  /** EV_ADD, EV_DISABLE (which keeps the entry) and EV_DELETE. */
  datatype Change = Add(fd: int, filter: Filter, udata: nat) | Disable(fd: int, filter: Filter) | Delete(fd: int, filter: Filter)

  predicate Accepts(kernel: Kernel, files: map<int, nat>, c: Change)
  {
    c.fd in files && (!c.Add? ==> (c.fd, c.filter) in kernel)
  }

  function ApplyChange(kernel: Kernel, c: Change): Kernel
  {
    match c
    case Add(fd, f, w) => kernel[(fd, f) := w]
    case Disable(_, _) => kernel
    case Delete(fd, f) => kernel - {(fd, f)}
  }

  /** kevent with a change list and no room for error reports: the changes up to the first that fails. */
  function Submit(kernel: Kernel, files: map<int, nat>, changes: seq<Change>, limit: nat): (Kernel, bool)
    decreases |changes|
  {
    if changes == [] then (kernel, true)
    else if limit == 0 || !Accepts(kernel, files, changes[0]) then (kernel, false)
    else Submit(ApplyChange(kernel, changes[0]), files, changes[1..], limit - 1)
  }

  function Adds(fd: int, mask: Mask, w: nat): seq<Change>
  {
    (if mask.read then [Add(fd, Read, w)] else []) + (if mask.write then [Add(fd, Write, w)] else [])
  }

  function Deletes(fd: int, mask: Mask): seq<Change>
  {
    (if mask.read then [Delete(fd, Read)] else []) + (if mask.write then [Delete(fd, Write)] else [])
  }

  /* ---------------- kqueue.c ---------------- */

  function FileAt(s: State, fd: int): Option<nat> { if fd in s.files then Some(s.files[fd]) else None }

  /** After the EV_ADDs: record the registration, or delete the filters when the array cannot grow. */
  function Track(s: State, w: nat, growMem: bool): (State, Code)
    requires w in s.watchers
  {
    var x := s.watchers[w];
    if |s.records| >= s.capacity && !growMem then
      (s.(kernel := Submit(s.kernel, s.files, Deletes(x.fd, x.mask), 2).0), NoMemory)
    else
      (s.(records := s.records + [Record(x.fd, w)],
          capacity := Arrays.Grown(s.capacity, |s.records|, growMem),
          watchers := s.watchers[w := x.(data := true, file := FileAt(s, x.fd))]), Ok)
  }

  function Register(s: State, w: nat, luck: Luck): (State, Code)
    requires w in s.watchers
  {
    if !luck.dataMem then (s, NoMemory)
    else
      var x := s.watchers[w];
      var s1 := s.(records := Evict(s.records, x.fd, w));
      var (kernel, ok) := Submit(s.kernel, s.files, Adds(x.fd, x.mask, w), luck.applied);
      if !ok then (s1.(kernel := kernel), SystemError)
      else Track(s1.(kernel := kernel), w, luck.growMem)
  }

  /** Disable the filters that the stored mask has and the new one lacks, then add those that the new
      one has and the stored one lacks. */
  function Changes(fd: int, was: Mask, mask: Mask, w: nat): seq<Change>
  {
    (if was.read && !mask.read then [Disable(fd, Read)] else [])
    + (if was.write && !mask.write then [Disable(fd, Write)] else [])
    + (if mask.read && !was.read then [Add(fd, Read, w)] else [])
    + (if mask.write && !was.write then [Add(fd, Write, w)] else [])
  }

  /** kqueue_watcher_update */
  function UpdateBackend(s: State, w: nat, mask: Mask, applied: nat): (State, Code)
    requires w in s.watchers
  {
    var x := s.watchers[w];
    if !x.data then (s, InvalidArg)
    else
      var (kernel, ok) := Submit(s.kernel, s.files, Changes(x.fd, x.mask, mask, w), applied);
      (s.(kernel := kernel), if ok then Ok else SystemError)
  }

  /** Errors of the EV_DELETEs are ignored. */
  function Unregister(s: State, w: nat): (State, Code)
    requires w in s.watchers
  {
    var x := s.watchers[w];
    var i := FindWatcher(s.records, w);
    if !x.data then (s, InvalidArg)
    else if i < |s.records| then
      (s.(kernel := Submit(s.kernel, s.files, Deletes(x.fd, x.mask), 2).0, records := SwapRemove(s.records, i),
          watchers := s.watchers[w := x.(data := false)]), Ok)
    else (s.(watchers := s.watchers[w := x.(data := false)]), Ok)
  }

  /* ---------------- watcher.c ---------------- */

  function SetActive(s: State, w: nat, active: bool): State
    requires w in s.watchers
  {
    s.(watchers := s.watchers[w := s.watchers[w].(active := active)])
  }

  /** The struct has been allocated and filled in. */
  function Newborn(s: State, fd: int, mask: Mask): State
  {
    s.(watchers := s.watchers[s.nextWatcher := Watcher(fd, mask, false, false, None)], nextWatcher := s.nextWatcher + 1)
  }

  function FreeStruct(s: State, w: nat): State { s.(watchers := s.watchers - {w}) }

  function Create(s: State, fd: int, mask: Mask, structMem: bool, luck: Luck, listMem: bool): (r: (State, Option<nat>))
    ensures r.1.Some? ==> r.1.value in r.0.watchers
  {
    if !structMem then (s, None)
    else
      var w := s.nextWatcher;
      var (s1, code) := Register(SetActive(Newborn(s, fd, mask), w, true), w, luck);
      if !code.Ok? then (FreeStruct(s1, w), None)
      else if !listMem then (FreeStruct(Unregister(s1, w).0, w), None)
      else (s1, Some(w))
  }

  function Start(s: State, w: nat, luck: Luck): (State, Code)
    requires w in s.watchers
  {
    if s.watchers[w].active then (s, Ok)
    else
      var (s1, code) := Register(SetActive(s, w, true), w, luck);
      if code.Ok? then (s1, Ok) else (SetActive(s1, w, false), code)
  }

  function Stop(s: State, w: nat): (State, Code)
    requires w in s.watchers
  {
    if !s.watchers[w].active then (s, Ok)
    else
      var (s1, code) := Unregister(SetActive(s, w, false), w);
      if code.Ok? then (s1, Ok) else (SetActive(s1, w, true), code)
  }

  function Destroy(s: State, w: nat): State
    requires w in s.watchers
  {
    FreeStruct(Unregister(Stop(s, w).0, w).0, w)
  }

  /** pd_watcher_update stores the new mask before it calls the backend. */
  function Update(s: State, w: nat, mask: Mask, applied: nat): (State, Code)
    requires w in s.watchers
  {
    if !s.watchers[w].active then (s, WatcherStopped)
    else UpdateBackend(s.(watchers := s.watchers[w := s.watchers[w].(mask := mask)]), w, mask, applied)
  }

  /* ---------------- the ownership invariant ---------------- */

  /** Watcher w is active, and its file has not been closed since it was registered. */
  predicate Owns(s: State, fd: int, w: nat)
  {
    && w in s.watchers && s.watchers[w].active && s.watchers[w].fd == fd
    && fd in s.files && s.watchers[w].file == Some(s.files[fd])
  }

  /** The kernel's entries are the filters of the watchers that own their number, and no others. */
  ghost predicate KernelIsOwned(s: State)
  {
    && (forall k <- s.kernel :: Owns(s, k.0, s.kernel[k]) && s.watchers[s.kernel[k]].mask.Has(k.1))
    && (forall w <- s.watchers, f: Filter :: Owns(s, s.watchers[w].fd, w) && s.watchers[w].mask.Has(f) ==>
          (s.watchers[w].fd, f) in s.kernel && s.kernel[(s.watchers[w].fd, f)] == w)
  }

  /** Records are unique, belong to active watchers, and include every owner's. */
  ghost predicate Recording(s: State)
  {
    && Unique(s.records)
    && (forall r <- s.records :: r.watcher in s.watchers && s.watchers[r.watcher].active && s.watchers[r.watcher].fd == r.ident)
    && (forall w <- s.watchers :: Owns(s, s.watchers[w].fd, w) ==> Record(s.watchers[w].fd, w) in s.records)
  }

  ghost predicate Numbered(s: State)
  {
    && (forall w <- s.watchers :: w < s.nextWatcher)
    && (forall w <- s.watchers :: s.watchers[w].active == s.watchers[w].data)
    && (forall fd <- s.files :: s.files[fd] < s.nextFile)
    && (forall w <- s.watchers :: s.watchers[w].file.Some? ==> s.watchers[w].file.value < s.nextFile)
  }

  ghost predicate Inv(s: State) { KernelIsOwned(s) && Recording(s) && Numbered(s) }

  /** The owner of each number: the watcher on record whose file is still the one it registered. */
  ghost function Owner(s: State): (m: map<int, nat>)
    requires Recording(s)
    ensures forall fd, w :: fd in m && m[fd] == w <==> Owns(s, fd, w)
  {
    map fd | fd in AsMap(s.records) && Owns(s, fd, AsMap(s.records)[fd]) :: AsMap(s.records)[fd]
  }

  lemma OpenKeepsInv(s: State, fd: int)
    requires Inv(s) && fd !in s.files
    ensures Inv(Open(s, fd)) && Owner(Open(s, fd)) == Owner(s)
  {
    var t := Open(s, fd);
    forall n, w ensures Owns(t, n, w) <==> Owns(s, n, w) {
    }
    assert Recording(t);
    SameOwner(s, t);
  }

  lemma SameOwner(s: State, t: State)
    requires Recording(s) && Recording(t) && forall fd, w :: Owns(t, fd, w) <==> Owns(s, fd, w)
    ensures Owner(t) == Owner(s)
  {
    OwnerIs(t, Owner(s));
  }

  lemma OwnerIs(s: State, m: map<int, nat>)
    requires Recording(s) && forall fd, w :: fd in m && m[fd] == w <==> Owns(s, fd, w)
    ensures Owner(s) == m
  {
    var o := Owner(s);
    forall fd ensures fd in o <==> fd in m {
      assert fd in o ==> Owns(s, fd, o[fd]);
      assert fd in m ==> Owns(s, fd, m[fd]);
    }
    forall fd | fd in o ensures o[fd] == m[fd] {
      assert Owns(s, fd, o[fd]);
    }
  }

  lemma CloseKeepsInv(s: State, fd: int)
    requires Inv(s)
    ensures Inv(Close(s, fd)) && Owner(Close(s, fd)) == Owner(s) - {fd}
  {
    var t := Close(s, fd);
    forall n, w ensures Owns(t, n, w) <==> Owns(s, n, w) && n != fd {
    }
    assert Recording(t);
    OwnerIs(t, Owner(s) - {fd});
  }

  /* ---------------- unregistering ---------------- */

  predicate Recorded(s: State, w: nat) { FindWatcher(s.records, w) < |s.records| }

  lemma SubmitOne(kernel: Kernel, files: map<int, nat>, c: Change, limit: nat)
    ensures Submit(kernel, files, [c], limit)
            == if limit > 0 && Accepts(kernel, files, c) then (ApplyChange(kernel, c), true) else (kernel, false)
  {
  }

  lemma SubmitTwo(kernel: Kernel, files: map<int, nat>, c: Change, d: Change, limit: nat)
    ensures Submit(kernel, files, [c, d], limit)
            == if limit > 0 && Accepts(kernel, files, c) then Submit(ApplyChange(kernel, c), files, [d], limit - 1) else (kernel, false)
  {
    assert [c, d][1..] == [d];
  }

  lemma DeletesUnfold(kernel: Kernel, files: map<int, nat>, fd: int, mask: Mask)
    ensures Submit(kernel, files, Deletes(fd, mask), 2).0
            == if mask.read && !Accepts(kernel, files, Delete(fd, Read)) then kernel
               else
                 var k1 := if mask.read then kernel - {(fd, Read)} else kernel;
                 if mask.write && Accepts(k1, files, Delete(fd, Write)) then k1 - {(fd, Write)} else k1
  {
    if mask.read && mask.write {
      assert Deletes(fd, mask) == [Delete(fd, Read), Delete(fd, Write)];
      SubmitTwo(kernel, files, Delete(fd, Read), Delete(fd, Write), 2);
      SubmitOne(kernel - {(fd, Read)}, files, Delete(fd, Write), 1);
    } else if mask.read {
      SubmitOne(kernel, files, Delete(fd, Read), 2);
    } else if mask.write {
      SubmitOne(kernel, files, Delete(fd, Write), 2);
    }
  }

  lemma Masks(mask: Mask)
    ensures (mask.read <==> mask.Has(Read)) && (mask.write <==> mask.Has(Write))
  {
  }

  /** Deleting a mask whose filters are all there removes those entries; one whose filters are all
      absent changes nothing. */
  lemma DeletesAll(kernel: Kernel, files: map<int, nat>, fd: int, mask: Mask)
    requires forall f: Filter :: mask.Has(f) ==> fd in files && (fd, f) in kernel
    ensures Submit(kernel, files, Deletes(fd, mask), 2).0 == Erase(kernel, fd, mask)
  {
    DeletesUnfold(kernel, files, fd, mask);
    Masks(mask);
    var t, e := Submit(kernel, files, Deletes(fd, mask), 2).0, Erase(kernel, fd, mask);
    forall k ensures k in t <==> k in e {
      assert k == (k.0, k.1) && (k.1 == Read || k.1 == Write);
    }
  }

  lemma DeletesNone(kernel: Kernel, files: map<int, nat>, fd: int, mask: Mask)
    requires forall f: Filter :: mask.Has(f) ==> (fd, f) !in kernel
    ensures Submit(kernel, files, Deletes(fd, mask), 2).0 == kernel
  {
    DeletesUnfold(kernel, files, fd, mask);
    Masks(mask);
  }

  function Erase(kernel: Kernel, fd: int, mask: Mask): Kernel
  {
    map k | k in kernel && !(k.0 == fd && mask.Has(k.1)) :: kernel[k]
  }

  lemma NoEntryOf(s: State, w: nat)
    requires KernelIsOwned(s) && (w in s.watchers ==> !Owns(s, s.watchers[w].fd, w))
    ensures forall k <- s.kernel :: s.kernel[k] != w
  {
    forall k <- s.kernel ensures s.kernel[k] != w {
      assert Owns(s, k.0, s.kernel[k]);
    }
  }

  /** Unregistering a recorded watcher removes exactly the kernel entries that name it: all its filters
      when its file is still open, and none, of whatever owner, when it was closed. */
  lemma DeletesHitOwnEntries(s: State, w: nat)
    requires KernelIsOwned(s) && Recording(s) && w in s.watchers && s.watchers[w].active && Recorded(s, w)
    ensures Submit(s.kernel, s.files, Deletes(s.watchers[w].fd, s.watchers[w].mask), 2).0 == O.Drop(s.kernel, w)
  {
    var x := s.watchers[w];
    if Owns(s, x.fd, w) {
      DeletesAll(s.kernel, s.files, x.fd, x.mask);
      forall k | k in s.kernel ensures s.kernel[k] == w <==> k.0 == x.fd && x.mask.Has(k.1) {
        assert Owns(s, k.0, s.kernel[k]);
        assert k == (k.0, k.1);
      }
    } else {
      NoEntryOf(s, w);
      var r := s.records[FindWatcher(s.records, w)];
      assert r in s.records && r == Record(x.fd, w);
      forall f: Filter ensures (x.fd, f) !in s.kernel {
        if (x.fd, f) in s.kernel {
          var v := s.kernel[(x.fd, f)];
          assert Owns(s, x.fd, v);
          UniqueMembers(s.records, r, Record(x.fd, v));
        }
      }
      DeletesNone(s.kernel, s.files, x.fd, x.mask);
      assert O.Drop(s.kernel, w) == s.kernel;
    }
  }

  /** State t is s after w was dropped from the kernel and the records. */
  ghost predicate Dropped(s: State, t: State, w: nat)
  {
    && w in s.watchers && Unique(t.records) && (forall r :: r in t.records <==> r in s.records && r.watcher != w)
    && t == s.(kernel := O.Drop(s.kernel, w), records := t.records,
               watchers := s.watchers[w := s.watchers[w].(active := false, data := false)])
  }

  lemma DroppedKeepsInv(s: State, t: State, w: nat)
    requires Inv(s) && Dropped(s, t, w)
    ensures Inv(t) && Owner(t) == O.Drop(Owner(s), w)
  {
    forall fd, v ensures Owns(t, fd, v) <==> Owns(s, fd, v) && v != w {
    }
    forall k <- t.kernel ensures Owns(t, k.0, t.kernel[k]) && t.watchers[t.kernel[k]].mask.Has(k.1) {
      assert Owns(s, k.0, s.kernel[k]);
    }
    forall v <- t.watchers, f: Filter | Owns(t, t.watchers[v].fd, v) && t.watchers[v].mask.Has(f)
      ensures (t.watchers[v].fd, f) in t.kernel && t.kernel[(t.watchers[v].fd, f)] == v
    {
      assert Owns(s, s.watchers[v].fd, v);
    }
    assert Recording(t);
    forall fd, v ensures fd in O.Drop(Owner(s), w) && O.Drop(Owner(s), w)[fd] == v <==> Owns(t, fd, v) {
      assert Owns(t, fd, v) ==> Owns(s, fd, v);
    }
    OwnerIs(t, O.Drop(Owner(s), w));
  }

  lemma RecordsWithout(rs: seq<Record>, w: nat)
    requires Unique(rs) && FindWatcher(rs, w) < |rs|
    ensures var ts := SwapRemove(rs, FindWatcher(rs, w));
            Unique(ts) && forall r :: r in ts <==> r in rs && r.watcher != w
  {
    var i := FindWatcher(rs, w);
    SwapRemoveMembers(rs, i);
    assert forall r <- rs :: r.watcher == w ==> r == rs[i];
  }

  lemma NotOwnerNotDropped(s: State, w: nat)
    requires Inv(s) && (w in s.watchers ==> !s.watchers[w].active)
    ensures O.Drop(s.kernel, w) == s.kernel && O.Drop(Owner(s), w) == Owner(s)
  {
    NoEntryOf(s, w);
    assert O.Drop(s.kernel, w) == s.kernel;
    OwnersAreActive(s, w);
  }

  lemma OwnersAreActive(s: State, w: nat)
    requires Recording(s) && (w in s.watchers ==> !s.watchers[w].active)
    ensures O.Drop(Owner(s), w) == Owner(s)
  {
    var m := Owner(s);
    assert forall fd <- m :: Owns(s, fd, m[fd]);
    hide Recording;
  }

  /** pd_watcher_stop on kqueue always succeeds, and removes exactly the watcher's own record and kernel
      entries: afterwards no filter names it, and no entry of another owner is touched. */
  lemma StopEffect(s: State, w: nat)
    requires Inv(s) && w in s.watchers
    ensures var (t, code) := Stop(s, w);
            && code.Ok? && Inv(t)
            && t.kernel == O.Drop(s.kernel, w) && Owner(t) == O.Drop(Owner(s), w)
            && (s.watchers[w].active ==> Dropped(s, t, w)) && (!s.watchers[w].active ==> t == s)
            && !t.watchers[w].active && !t.watchers[w].data
  {
    if s.watchers[w].active {
      StopShape(s, w);
      StopIsDropped(s, Stop(s, w).0, w);
      DroppedKeepsInv(s, Stop(s, w).0, w);
    } else {
      NotOwnerNotDropped(s, w);
    }
  }

  lemma NotRecordedNotDropped(s: State, w: nat)
    requires KernelIsOwned(s) && Recording(s) && w in s.watchers && !Recorded(s, w)
    ensures O.Drop(s.kernel, w) == s.kernel
  {
    assert forall r <- s.records :: r.watcher != w;
    NoEntryOf(s, w);
  }

  lemma StopIsDropped(s: State, t: State, w: nat)
    requires Inv(s) && w in s.watchers && s.watchers[w].active && StoppedShape(s, t, w)
    ensures Dropped(s, t, w)
  {
    hide Submit, Deletes, SwapRemove, KernelIsOwned, Numbered, O.Drop, Owns;
    RecordsWithoutMaybe(s, w);
    if Recorded(s, w) {
      DeletesHitOwnEntries(s, w);
    } else {
      NotRecordedNotDropped(s, w);
    }
  }

  lemma RecordsWithoutMaybe(s: State, w: nat)
    requires Unique(s.records)
    ensures var ts := if Recorded(s, w) then SwapRemove(s.records, FindWatcher(s.records, w)) else s.records;
            Unique(ts) && forall r :: r in ts <==> r in s.records && r.watcher != w
  {
    if Recorded(s, w) {
      RecordsWithout(s.records, w);
    }
  }

  ghost predicate StoppedShape(s: State, t: State, w: nat)
    requires w in s.watchers
  {
    t == s.(kernel := if Recorded(s, w) then Submit(s.kernel, s.files, Deletes(s.watchers[w].fd, s.watchers[w].mask), 2).0 else s.kernel,
            records := if Recorded(s, w) then SwapRemove(s.records, FindWatcher(s.records, w)) else s.records,
            watchers := s.watchers[w := s.watchers[w].(active := false, data := false)])
  }

  lemma StopShape(s: State, w: nat)
    requires w in s.watchers && s.watchers[w].active && s.watchers[w].data
    ensures var (t, code) := Stop(s, w); code.Ok? && StoppedShape(s, t, w)
  {
  }

  /* ---------------- registering ---------------- */

  /** The kernel with every filter of the mask set to w. */
  function Fill(kernel: Kernel, fd: int, mask: Mask, w: nat): Kernel
  {
    var k1 := if mask.read then kernel[(fd, Read) := w] else kernel;
    if mask.write then k1[(fd, Write) := w] else k1
  }

  /** The kernel takes the first of two filters and refuses the second. */
  predicate Partial(s: State, fd: int, mask: Mask, luck: Luck)
  {
    luck.dataMem && mask.read && mask.write && fd in s.files && luck.applied == 1
  }

  lemma AddsUnfold(kernel: Kernel, files: map<int, nat>, fd: int, mask: Mask, w: nat, limit: nat)
    ensures Submit(kernel, files, Adds(fd, mask, w), limit)
            == if !mask.read && !mask.write then (kernel, true)
               else if limit == 0 || fd !in files then (kernel, false)
               else if mask.read && mask.write && limit == 1 then (kernel[(fd, Read) := w], false)
               else (Fill(kernel, fd, mask, w), true)
  {
    if mask.read && mask.write {
      assert Adds(fd, mask, w) == [Add(fd, Read, w), Add(fd, Write, w)];
      SubmitTwo(kernel, files, Add(fd, Read, w), Add(fd, Write, w), limit);
      if limit > 0 {
        SubmitOne(kernel[(fd, Read) := w], files, Add(fd, Write, w), limit - 1);
      }
    } else if mask.read {
      SubmitOne(kernel, files, Add(fd, Read, w), limit);
    } else if mask.write {
      SubmitOne(kernel, files, Add(fd, Write, w), limit);
    }
  }

  /** Deleting what was just added to a number without entries leads back. */
  lemma FillUndone(kernel: Kernel, files: map<int, nat>, fd: int, mask: Mask, w: nat)
    requires forall f: Filter :: (fd, f) !in kernel
    requires mask.read || mask.write ==> fd in files
    ensures Submit(Fill(kernel, fd, mask, w), files, Deletes(fd, mask), 2).0 == kernel
  {
    Masks(mask);
    DeletesAll(Fill(kernel, fd, mask, w), files, fd, mask);
    var e := Erase(Fill(kernel, fd, mask, w), fd, mask);
    forall k ensures k in e <==> k in kernel {
      assert k == (k.0, k.1) && (k.1 == Read || k.1 == Write);
    }
  }

  /** State t is a after the inactive watcher w was registered. */
  ghost predicate Joined(a: State, t: State, w: nat)
  {
    && w in a.watchers && !a.watchers[w].active
    && var x := a.watchers[w];
       && (x.mask.read || x.mask.write ==> x.fd in a.files)
       && t == a.(kernel := Fill(a.kernel, x.fd, x.mask, w), records := Evict(a.records, x.fd, w) + [Record(x.fd, w)],
                  capacity := t.capacity, watchers := a.watchers[w := x.(active := true, data := true, file := FileAt(a, x.fd))])
  }

  /** A registration that failed, after evicting if it got that far. */
  ghost predicate Refused(a: State, t: State, fd: int, w: nat, evicts: bool)
  {
    t == a.(kernel := t.kernel, records := if evicts then Evict(a.records, fd, w) else a.records)
  }

  /** The outcome of a registration: what it does to the kernel, and whether it succeeds. */
  ghost predicate RegisterOutcome(a: State, t: State, code: Code, w: nat, luck: Luck)
    requires w in a.watchers && !a.watchers[w].active
  {
    var x := a.watchers[w];
    && (code.Ok? ==> luck.dataMem && !Partial(a, x.fd, x.mask, luck) && Joined(a, t, w))
    && (!code.Ok? ==> Refused(SetActive(a, w, true), t, x.fd, w, luck.dataMem))
    && (!code.Ok? && Partial(a, x.fd, x.mask, luck) ==> t.kernel == a.kernel[(x.fd, Read) := w])
    && (!code.Ok? && !Partial(a, x.fd, x.mask, luck) && (forall f: Filter :: (x.fd, f) !in a.kernel) ==> t.kernel == a.kernel)
  }

  lemma RegisterEffect(a: State, w: nat, luck: Luck)
    requires w in a.watchers && !a.watchers[w].active
    ensures var (t, code) := Register(SetActive(a, w, true), w, luck); RegisterOutcome(a, t, code, w, luck)
  {
    var x, s := a.watchers[w], SetActive(a, w, true);
    AddsUnfold(a.kernel, a.files, x.fd, x.mask, w, luck.applied);
    var (kernel, ok) := Submit(a.kernel, a.files, Adds(x.fd, x.mask, w), luck.applied);
    if luck.dataMem && ok {
      TrackEffect(a, s.(records := Evict(s.records, x.fd, w), kernel := kernel), w, luck);
    }
  }

  lemma TrackEffect(a: State, s: State, w: nat, luck: Luck)
    requires w in a.watchers && !a.watchers[w].active && luck.dataMem && !Partial(a, a.watchers[w].fd, a.watchers[w].mask, luck)
    requires var x := a.watchers[w];
             && s == SetActive(a, w, true).(records := Evict(a.records, x.fd, w), kernel := Fill(a.kernel, x.fd, x.mask, w))
             && (x.mask.read || x.mask.write ==> x.fd in a.files)
    ensures var (t, code) := Track(s, w, luck.growMem); RegisterOutcome(a, t, code, w, luck)
  {
    var x := a.watchers[w];
    if forall f: Filter :: (x.fd, f) !in a.kernel {
      FillUndone(a.kernel, a.files, x.fd, x.mask, w);
    }
  }

  lemma NoEntryAt(s: State, fd: int)
    requires Inv(s) && fd !in Owner(s)
    ensures forall f: Filter :: (fd, f) !in s.kernel
  {
    forall k <- s.kernel ensures k.0 in Owner(s) {
      assert Owns(s, k.0, s.kernel[k]);
    }
  }

  lemma FillLookup(kernel: Kernel, fd: int, mask: Mask, w: nat)
    ensures forall k :: k in Fill(kernel, fd, mask, w) <==> k in kernel || (k.0 == fd && mask.Has(k.1))
    ensures forall k <- Fill(kernel, fd, mask, w) :: Fill(kernel, fd, mask, w)[k] == if k.0 == fd && mask.Has(k.1) then w else kernel[k]
  {
    var t := Fill(kernel, fd, mask, w);
    forall k ensures (k in t <==> k in kernel || (k.0 == fd && mask.Has(k.1)))
                  && (k in t ==> t[k] == if k.0 == fd && mask.Has(k.1) then w else kernel[k]) {
      assert k == (k.0, k.1) && (k.1 == Read || k.1 == Write);
    }
  }

  lemma JoinedRecords(a: State, t: State, w: nat)
    requires Recording(a) && Joined(a, t, w)
    ensures Unique(t.records)
    ensures forall r :: r in t.records <==> (r in a.records && r.ident != a.watchers[w].fd) || r == Record(a.watchers[w].fd, w)
  {
    var x := a.watchers[w];
    EvictMembers(a.records, x.fd, w);
    AppendIsMapInsert(Evict(a.records, x.fd, w), Record(x.fd, w));
  }

  /** The owners after a registration are those before, and w if its number is open. */
  lemma JoinedOwns(a: State, t: State, w: nat, fd: int, v: nat)
    requires Joined(a, t, w)
    ensures Owns(t, fd, v) <==> if v == w then fd == a.watchers[w].fd && fd in a.files else Owns(a, fd, v)
  {
    hide Evict, Fill;
  }

  /** After a registration every kernel entry is its owner's. */
  lemma JoinedEntries(a: State, t: State, w: nat, k: (int, Filter))
    requires Inv(a) && Joined(a, t, w) && a.watchers[w].fd !in Owner(a) && k in t.kernel
    ensures Owns(t, k.0, t.kernel[k]) && t.watchers[t.kernel[k]].mask.Has(k.1)
  {
    var x := a.watchers[w];
    hide Recording, Numbered, Evict;
    FillLookup(a.kernel, x.fd, x.mask, w);
    Masks(x.mask);
    if k.0 == x.fd && x.mask.Has(k.1) {
      JoinedOwns(a, t, w, k.0, w);
    } else {
      assert Owns(a, k.0, a.kernel[k]);
      JoinedOwns(a, t, w, k.0, a.kernel[k]);
    }
  }

  /** ... and every owner's filters are in the kernel. */
  lemma JoinedFilters(a: State, t: State, w: nat, v: nat, f: Filter)
    requires Inv(a) && Joined(a, t, w) && a.watchers[w].fd !in Owner(a)
    requires v in t.watchers && Owns(t, t.watchers[v].fd, v) && t.watchers[v].mask.Has(f)
    ensures (t.watchers[v].fd, f) in t.kernel && t.kernel[(t.watchers[v].fd, f)] == v
  {
    var x := a.watchers[w];
    hide Recording, Numbered, Evict;
    FillLookup(a.kernel, x.fd, x.mask, w);
    JoinedOwns(a, t, w, t.watchers[v].fd, v);
    if v != w {
      assert Owns(a, a.watchers[v].fd, v);
    }
  }

  lemma JoinedKeepsKernel(a: State, t: State, w: nat)
    requires Inv(a) && Joined(a, t, w) && a.watchers[w].fd !in Owner(a)
    ensures KernelIsOwned(t)
  {
    hide Inv, Joined;
    forall k <- t.kernel ensures Owns(t, k.0, t.kernel[k]) && t.watchers[t.kernel[k]].mask.Has(k.1) {
      JoinedEntries(a, t, w, k);
    }
    forall v <- t.watchers, f: Filter | Owns(t, t.watchers[v].fd, v) && t.watchers[v].mask.Has(f)
      ensures (t.watchers[v].fd, f) in t.kernel && t.kernel[(t.watchers[v].fd, f)] == v
    {
      JoinedFilters(a, t, w, v, f);
    }
  }

  /** After a registration every record is that of an active watcher. */
  lemma JoinedRecord(a: State, t: State, w: nat, r: Record)
    requires Recording(a) && Joined(a, t, w) && ((r in a.records && r.ident != a.watchers[w].fd) || r == Record(a.watchers[w].fd, w))
    ensures r.watcher in t.watchers && t.watchers[r.watcher].active && t.watchers[r.watcher].fd == r.ident
  {
    hide Evict, Fill;
  }

  /** ... and every owner is recorded. */
  lemma JoinedIsRecorded(a: State, t: State, w: nat, v: nat)
    requires Recording(a) && Joined(a, t, w) && (forall k :: !Owns(a, a.watchers[w].fd, k))
    requires forall r :: r in t.records <==> (r in a.records && r.ident != a.watchers[w].fd) || r == Record(a.watchers[w].fd, w)
    requires v in t.watchers && Owns(t, t.watchers[v].fd, v)
    ensures Record(t.watchers[v].fd, v) in t.records
  {
    hide Evict, Fill;
    JoinedOwns(a, t, w, t.watchers[v].fd, v);
    if v != w {
      assert Owns(a, a.watchers[v].fd, v);
    }
  }

  lemma JoinedKeepsRecording(a: State, t: State, w: nat)
    requires Inv(a) && Joined(a, t, w) && a.watchers[w].fd !in Owner(a)
    ensures Recording(t)
  {
    JoinedRecords(a, t, w);
    assert forall k :: !Owns(a, a.watchers[w].fd, k);
    hide KernelIsOwned, Numbered, Evict, Fill, Owns;
    forall r <- t.records ensures r.watcher in t.watchers && t.watchers[r.watcher].active && t.watchers[r.watcher].fd == r.ident {
      JoinedRecord(a, t, w, r);
    }
    forall v <- t.watchers | Owns(t, t.watchers[v].fd, v) ensures Record(t.watchers[v].fd, v) in t.records {
      JoinedIsRecorded(a, t, w, v);
    }
  }

  lemma JoinedOwner(a: State, t: State, w: nat)
    requires Recording(a) && Recording(t) && Joined(a, t, w) && a.watchers[w].fd !in Owner(a)
    requires forall fd, v :: Owns(a, fd, v) ==> v != w
    ensures Owner(t) == if a.watchers[w].fd in a.files then Owner(a)[a.watchers[w].fd := w] else Owner(a)
  {
    hide Recording, Owns, Evict, Fill;
    var x := a.watchers[w];
    var m := if x.fd in a.files then Owner(a)[x.fd := w] else Owner(a);
    forall fd, v ensures fd in m && m[fd] == v <==> Owns(t, fd, v) {
      JoinedOwns(a, t, w, fd, v);
      assert fd in Owner(a) ==> Owns(a, fd, Owner(a)[fd]);
    }
    OwnerIs(t, m);
  }

  lemma JoinedKeepsInv(a: State, t: State, w: nat)
    requires Inv(a) && Joined(a, t, w) && a.watchers[w].fd !in Owner(a)
    ensures Inv(t) && Owner(t) == if a.watchers[w].fd in a.files then Owner(a)[a.watchers[w].fd := w] else Owner(a)
  {
    hide Evict, Fill, KernelIsOwned, Recording;
    JoinedKeepsKernel(a, t, w);
    JoinedKeepsRecording(a, t, w);
    assert forall fd, v :: Owns(a, fd, v) ==> v != w;
    hide Numbered, Joined;
    JoinedOwner(a, t, w);
  }

  /** An eviction that hits an owner breaks the invariant, whatever else the registration does. */
  lemma EvictedOwner(s: State, t: State, fd: int, w: nat)
    requires Inv(s) && fd in Owner(s) && Owner(s)[fd] != w
    requires t.files == s.files && (forall v <- s.watchers | v != w :: v in t.watchers && t.watchers[v] == s.watchers[v])
    requires forall r <- t.records :: r in Evict(s.records, fd, w) || r.watcher == w
    ensures !Inv(t)
  {
    var v := Owner(s)[fd];
    assert Owns(s, fd, v) && Owns(t, fd, v);
    EvictMembers(s.records, fd, w);
    assert Record(fd, v) !in t.records;
  }

  /** A refused registration on a number that nobody owns keeps the invariant exactly when the kernel
      did not take the first of two filters. */
  lemma RefusedKeepsInvIff(s: State, t: State, fd: int, w: nat, evicts: bool)
    requires Inv(s) && Refused(s, t, fd, w, evicts) && fd !in Owner(s) && (w in s.watchers ==> !s.watchers[w].active)
    requires t.kernel == s.kernel || t.kernel == s.kernel[(fd, Read) := w]
    ensures Inv(t) <==> t.kernel == s.kernel
    ensures Inv(t) ==> Owner(t) == Owner(s)
  {
    if t.kernel == s.kernel {
      EvictionKeepsInv(s, t, fd, w, evicts);
    } else {
      assert t.kernel[(fd, Read)] == w && !Owns(t, fd, w);
      assert (fd, Read) in t.kernel;
      assert !KernelIsOwned(t);
    }
  }

  lemma EvictionKeepsInv(s: State, t: State, fd: int, w: nat, evicts: bool)
    requires Inv(s) && fd !in Owner(s)
    requires t == s.(records := if evicts then Evict(s.records, fd, w) else s.records)
    ensures Inv(t) && Owner(t) == Owner(s)
  {
    EvictMembers(s.records, fd, w);
    assert forall n, v :: Owns(t, n, v) <==> Owns(s, n, v);
    forall v <- t.watchers | Owns(t, t.watchers[v].fd, v) ensures Record(t.watchers[v].fd, v) in t.records {
      assert Owns(s, s.watchers[v].fd, v);
    }
    assert Recording(t);
    SameOwner(s, t);
  }

  /** Watcher w can be registered on fd: its platform_data can be allocated, fd is open and the kernel
      takes every filter of the mask (if there is one), and the record fits after the eviction. */
  predicate Registrable(s: State, fd: int, mask: Mask, w: nat, luck: Luck)
  {
    luck.dataMem && Taken(s, fd, mask, luck.applied) && (|Evict(s.records, fd, w)| < s.capacity || luck.growMem)
  }

  predicate Taken(s: State, fd: int, mask: Mask, applied: nat)
  {
    mask.read || mask.write ==> fd in s.files && applied >= if mask.read && mask.write then 2 else 1
  }

  /** The code of a registration, from the state before it. */
  lemma RegisterCode(s: State, w: nat, luck: Luck)
    requires w in s.watchers
    ensures var code, x := Register(s, w, luck).1, s.watchers[w];
            && (code.Ok? <==> Registrable(s, x.fd, x.mask, w, luck))
            && (code.SystemError? <==> luck.dataMem && !Taken(s, x.fd, x.mask, luck.applied))
            && (code.Ok? || code.SystemError? || code.NoMemory?)
  {
    AddsUnfold(s.kernel, s.files, s.watchers[w].fd, s.watchers[w].mask, w, luck.applied);
    hide Submit, Evict, Fill, Adds, Deletes;
  }

  /** pd_watcher_start.  It succeeds exactly when the watcher is registrable, and reports a system error
      exactly when the kernel does not take all its filters.  It keeps the invariant exactly when no platform_data could be allocated, or
      the number has no owner yet and the kernel does not take one of two filters only; then a failed
      start leaves kernel, owners and watchers as they were. */
  lemma StartEffect(s: State, w: nat, luck: Luck)
    requires Inv(s) && w in s.watchers && !s.watchers[w].active
    ensures var (t, code) := Start(s, w, luck);
            var x := s.watchers[w];
            && (Inv(t) <==> !luck.dataMem || (x.fd !in Owner(s) && !Partial(s, x.fd, x.mask, luck)))
            && (code.Ok? ==> luck.dataMem && Joined(s, t, w))
            && (code.Ok? && Inv(t) ==> Owner(t) == if x.fd in s.files then Owner(s)[x.fd := w] else Owner(s))
            && (!code.Ok? ==> Refused(s, t, x.fd, w, luck.dataMem))
            && (!code.Ok? && Inv(t) ==> t.kernel == s.kernel && Owner(t) == Owner(s))
    ensures var code, x := Start(s, w, luck).1, s.watchers[w];
            && (code.Ok? <==> Registrable(s, x.fd, x.mask, w, luck))
            && (code.SystemError? <==> luck.dataMem && !Taken(s, x.fd, x.mask, luck.applied))
            && (code.Ok? || code.SystemError? || code.NoMemory?)
  {
    RegisterCode(SetActive(s, w, true), w, luck);
    var (t, code) := Start(s, w, luck);
    StartShape(s, w, luck);
    hide Start, Inv;
    StartKeepsInvIff(s, t, code, w, luck);
  }

  /** A start is a registration, with `active` restored when it fails. */
  ghost predicate StartOutcome(s: State, t: State, code: Code, w: nat, luck: Luck)
    requires w in s.watchers && !s.watchers[w].active
  {
    var x := s.watchers[w];
    && (code.Ok? ==> luck.dataMem && !Partial(s, x.fd, x.mask, luck) && Joined(s, t, w))
    && (!code.Ok? ==> Refused(s, t, x.fd, w, luck.dataMem))
    && (!luck.dataMem ==> t == s && !code.Ok?)
    && (!code.Ok? && Partial(s, x.fd, x.mask, luck) ==> t.kernel == s.kernel[(x.fd, Read) := w])
    && (!code.Ok? && !Partial(s, x.fd, x.mask, luck) && (forall f: Filter :: (x.fd, f) !in s.kernel) ==> t.kernel == s.kernel)
  }

  lemma StartShape(s: State, w: nat, luck: Luck)
    requires w in s.watchers && !s.watchers[w].active
    ensures var (t, code) := Start(s, w, luck); StartOutcome(s, t, code, w, luck)
  {
    RegisterEffect(s, w, luck);
    assert s.watchers[w := s.watchers[w].(active := true)][w := s.watchers[w]] == s.watchers;
  }

  lemma StartKeepsInvIff(s: State, t: State, code: Code, w: nat, luck: Luck)
    requires Inv(s) && w in s.watchers && !s.watchers[w].active && StartOutcome(s, t, code, w, luck)
    ensures var x := s.watchers[w];
            && (Inv(t) <==> !luck.dataMem || (x.fd !in Owner(s) && !Partial(s, x.fd, x.mask, luck)))
            && (code.Ok? && Inv(t) ==> Owner(t) == if x.fd in s.files then Owner(s)[x.fd := w] else Owner(s))
            && (!code.Ok? && Inv(t) ==> t.kernel == s.kernel && Owner(t) == Owner(s))
  {
    hide KernelIsOwned, Recording, Numbered, Joined, Refused, Partial, Fill;
    var x := s.watchers[w];
    if luck.dataMem {
      if x.fd in Owner(s) {
        StartEvictsOwner(s, t, code, w);
      } else if code.Ok? {
        JoinedKeepsInv(s, t, w);
      } else {
        NoEntryAt(s, x.fd);
        assert (x.fd, Read) !in s.kernel;
        RefusedKeepsInvIff(s, t, x.fd, w, true);
      }
    }
  }

  lemma StartEvictsOwner(s: State, t: State, code: Code, w: nat)
    requires Inv(s) && w in s.watchers && !s.watchers[w].active && s.watchers[w].fd in Owner(s)
    requires if code.Ok? then Joined(s, t, w) else Refused(s, t, s.watchers[w].fd, w, true)
    ensures !Inv(t)
  {
    hide KernelIsOwned, Recording, Numbered, Evict, Fill;
    assert Owns(s, s.watchers[w].fd, Owner(s)[s.watchers[w].fd]);
    EvictedOwner(s, t, s.watchers[w].fd, w);
  }

  /* ---------------- creating and destroying ---------------- */

  lemma NewbornKeepsInv(s: State, fd: int, mask: Mask)
    requires Inv(s)
    ensures s.nextWatcher !in s.watchers
    ensures Inv(Newborn(s, fd, mask)) && Owner(Newborn(s, fd, mask)) == Owner(s)
  {
    var t := Newborn(s, fd, mask);
    assert s.nextWatcher !in s.watchers;
    forall n, v ensures Owns(t, n, v) <==> Owns(s, n, v) {
    }
    forall k <- t.kernel ensures Owns(t, k.0, t.kernel[k]) && t.watchers[t.kernel[k]].mask.Has(k.1) {
      assert Owns(s, k.0, s.kernel[k]);
    }
    forall v <- t.watchers, f: Filter | Owns(t, t.watchers[v].fd, v) && t.watchers[v].mask.Has(f)
      ensures (t.watchers[v].fd, f) in t.kernel && t.kernel[(t.watchers[v].fd, f)] == v
    {
      assert Owns(s, s.watchers[v].fd, v);
    }
    SameOwner(s, t);
  }

  lemma FreedKeepsInv(s: State, w: nat)
    requires Inv(s) && w in s.watchers && !s.watchers[w].active
    ensures Inv(FreeStruct(s, w)) && Owner(FreeStruct(s, w)) == Owner(s)
  {
    var t := FreeStruct(s, w);
    forall n, v ensures Owns(t, n, v) <==> Owns(s, n, v) {
    }
    forall k <- t.kernel ensures Owns(t, k.0, t.kernel[k]) && t.watchers[t.kernel[k]].mask.Has(k.1) {
      assert Owns(s, k.0, s.kernel[k]);
    }
    forall v <- t.watchers, f: Filter | Owns(t, t.watchers[v].fd, v) && t.watchers[v].mask.Has(f)
      ensures (t.watchers[v].fd, f) in t.kernel && t.kernel[(t.watchers[v].fd, f)] == v
    {
      assert Owns(s, s.watchers[v].fd, v);
    }
    SameOwner(s, t);
  }

  /** pd_watcher_destroy: no filter, no record and no struct of w is left, and nothing of any other. */
  lemma DestroyEffect(s: State, w: nat)
    requires Inv(s) && w in s.watchers
    ensures var t := Destroy(s, w);
            && Inv(t) && t.kernel == O.Drop(s.kernel, w) && Owner(t) == O.Drop(Owner(s), w)
            && t.watchers == s.watchers - {w}
            && (forall r :: r in t.records <==> r in s.records && r.watcher != w)
  {
    StopEffect(s, w);
    var s1 := Stop(s, w).0;
    DestroyIsStopThenFree(s, s1, w);
    FreedKeepsInv(s1, w);
  }

  lemma DestroyIsStopThenFree(s: State, s1: State, w: nat)
    requires Inv(s) && w in s.watchers && s1 == Stop(s, w).0 && !s1.watchers[w].data
    requires (s.watchers[w].active ==> Dropped(s, s1, w)) && (!s.watchers[w].active ==> s1 == s)
    ensures Destroy(s, w) == FreeStruct(s1, w) && s1.watchers - {w} == s.watchers - {w}
    ensures forall r :: r in s1.records <==> r in s.records && r.watcher != w
  {
  }

  /** State t is s with a new watcher, registered. */
  ghost predicate Born(s: State, t: State, fd: int, mask: Mask)
  {
    Joined(Newborn(s, fd, mask), t, s.nextWatcher)
  }

  lemma UnregisterIsStop(b: State, w: nat)
    requires w in b.watchers && b.watchers[w].active && b.watchers[w].data
    ensures FreeStruct(Unregister(b, w).0, w) == FreeStruct(Stop(b, w).0, w)
  {
    StopShape(b, w);
    assert Unregister(b, w).0.watchers - {w} == Stop(b, w).0.watchers - {w};
  }

  lemma RegisterSetsData(s: State, w: nat, luck: Luck)
    requires w in s.watchers
    ensures var (t, code) := Register(s, w, luck);
            w in t.watchers && t.watchers[w].active == s.watchers[w].active && (code.Ok? ==> t.watchers[w].data)
  {
  }

  lemma SetActiveFreed(s: State, w: nat, active: bool)
    requires w in s.watchers
    ensures FreeStruct(SetActive(s, w, active), w) == FreeStruct(s, w)
  {
    assert SetActive(s, w, active).watchers - {w} == s.watchers - {w};
  }

  /** Creating is starting the new struct; when the start fails, or the list cannot grow, the watcher
      is stopped again and its struct freed. */
  lemma CreateIsStart(s: State, t1: State, code: Code, fd: int, mask: Mask, luck: Luck, listMem: bool)
    requires s.nextWatcher !in s.watchers && (t1, code) == Start(Newborn(s, fd, mask), s.nextWatcher, luck)
    ensures s.nextWatcher in t1.watchers
    ensures var w := s.nextWatcher;
            Create(s, fd, mask, true, luck, listMem)
            == if !code.Ok? then (FreeStruct(t1, w), None)
               else if !listMem then (FreeStruct(Stop(t1, w).0, w), None)
               else (t1, Some(w))
  {
    var w := s.nextWatcher;
    var a := SetActive(Newborn(s, fd, mask), w, true);
    var b := Register(a, w, luck).0;
    RegisterSetsData(a, w, luck);
    SetActiveFreed(b, w, false);
    if code.Ok? {
      assert t1 == b;
      UnregisterIsStop(b, w);
    }
  }

  lemma FilledThenDropped(a: State, t: State, w: nat)
    requires Inv(a) && Joined(a, t, w) && a.watchers[w].fd !in Owner(a)
    ensures O.Drop(t.kernel, w) == a.kernel
    ensures O.Drop(Owner(a)[a.watchers[w].fd := w], w) == Owner(a) && O.Drop(Owner(a), w) == Owner(a)
  {
    var x := a.watchers[w];
    NoEntryAt(a, x.fd);
    NoEntryOf(a, w);
    FillThenDrop(a.kernel, x.fd, x.mask, w);
    assert forall fd <- Owner(a) :: Owns(a, fd, Owner(a)[fd]);
    AddThenDrop(Owner(a), x.fd, w);
  }

  lemma FillThenDrop(kernel: Kernel, fd: int, mask: Mask, w: nat)
    requires (forall f: Filter :: (fd, f) !in kernel) && (forall k <- kernel :: kernel[k] != w)
    ensures O.Drop(Fill(kernel, fd, mask, w), w) == kernel
  {
    FillLookup(kernel, fd, mask, w);
    forall k <- kernel ensures k.0 != fd {
      assert k == (k.0, k.1);
    }
  }

  lemma AddThenDrop(m: map<int, nat>, fd: int, w: nat)
    requires fd !in m && forall k <- m :: m[k] != w
    ensures O.Drop(m[fd := w], w) == m && O.Drop(m, w) == m
  {
    var t := O.Drop(m[fd := w], w);
    forall k ensures k in t <==> k in m {
      assert k in m ==> k != fd && m[fd := w][k] == m[k];
    }
  }

  lemma CreateBreaks(s: State, t1: State, code: Code, t: State, fd: int, mask: Mask, luck: Luck, listMem: bool)
    requires Inv(s) && luck.dataMem && (fd in Owner(s) || Partial(s, fd, mask, luck))
    requires (t1, code) == Start(Newborn(s, fd, mask), s.nextWatcher, luck) && t == Create(s, fd, mask, true, luck, listMem).0
    ensures !Inv(t)
  {
    var w, a := s.nextWatcher, Newborn(s, fd, mask);
    NewbornKeepsInv(s, fd, mask);
    if fd in Owner(s) {
      assert Owns(s, fd, Owner(s)[fd]);
      StartRecords(a, t1, code, w, luck);
      CreateFrame(s, t1, code, t, fd, mask, luck, listMem);
      EvictedOwner(s, t, fd, w);
    } else {
      CreateIsStart(s, t1, code, fd, mask, luck, listMem);
      PartialDangles(a, t1, code, fd, mask, w, luck);
    }
  }

  lemma StartRecords(a: State, t1: State, code: Code, w: nat, luck: Luck)
    requires w in a.watchers && !a.watchers[w].active && luck.dataMem && (t1, code) == Start(a, w, luck)
    ensures forall r <- t1.records :: r in Evict(a.records, a.watchers[w].fd, w) || r.watcher == w
  {
    RegisterEffect(a, w, luck);
  }

  lemma PartialDangles(a: State, t1: State, code: Code, fd: int, mask: Mask, w: nat, luck: Luck)
    requires w in a.watchers && !a.watchers[w].active && a.watchers[w].fd == fd && a.watchers[w].mask == mask
    requires Partial(a, fd, mask, luck) && (t1, code) == Start(a, w, luck)
    ensures !code.Ok? && !Inv(FreeStruct(t1, w))
  {
    RegisterEffect(a, w, luck);
    var t := FreeStruct(t1, w);
    assert (fd, Read) in t.kernel && t.kernel[(fd, Read)] == w && !Owns(t, fd, w);
    assert !KernelIsOwned(t);
  }

  lemma CreateFrame(s: State, t1: State, code: Code, t: State, fd: int, mask: Mask, luck: Luck, listMem: bool)
    requires s.nextWatcher !in s.watchers && t == Create(s, fd, mask, true, luck, listMem).0
    requires (t1, code) == Start(Newborn(s, fd, mask), s.nextWatcher, luck)
    ensures forall r <- t.records :: r in t1.records
    ensures t.files == s.files && forall v <- s.watchers :: v in t.watchers && t.watchers[v] == s.watchers[v]
  {
    CreateIsStart(s, t1, code, fd, mask, luck, listMem);
    StartFrame(Newborn(s, fd, mask), s.nextWatcher, luck);
    StopOnlyRemoves(t1, s.nextWatcher);
  }

  lemma StartFrame(a: State, w: nat, luck: Luck)
    requires w in a.watchers && !a.watchers[w].active
    ensures var t := Start(a, w, luck).0;
            t.files == a.files && forall v <- a.watchers | v != w :: v in t.watchers && t.watchers[v] == a.watchers[v]
  {
  }

  lemma StopOnlyRemoves(s: State, w: nat)
    requires w in s.watchers
    ensures var t := Stop(s, w).0; t.files == s.files && forall r <- t.records :: r in s.records
    ensures var t := Stop(s, w).0; forall v <- s.watchers | v != w :: v in t.watchers && t.watchers[v] == s.watchers[v]
  {
    var i := FindWatcher(s.records, w);
    if i < |s.records| {
      assert forall k :: 0 <= k < |s.records| - 1 ==> SwapRemove(s.records, i)[k] in s.records;
    }
  }

  /** pd_watcher_create.  It succeeds exactly when the struct can be allocated, the watcher is registrable
      and the list takes it.  It keeps the invariant under the same condition as a start; a failed one then
      leaves the kernel, the owners and the watchers as they were. */
  lemma CreateEffect(s: State, fd: int, mask: Mask, structMem: bool, luck: Luck, listMem: bool)
    requires Inv(s)
    ensures var (t, made) := Create(s, fd, mask, structMem, luck, listMem);
            && (Inv(t) <==> !structMem || !luck.dataMem || (fd !in Owner(s) && !Partial(s, fd, mask, luck)))
            && (made.Some? ==> made.value == s.nextWatcher && Born(s, t, fd, mask))
            && (made.Some? && Inv(t) ==> Owner(t) == if fd in s.files then Owner(s)[fd := s.nextWatcher] else Owner(s))
            && (made.None? && Inv(t) ==> t.kernel == s.kernel && Owner(t) == Owner(s) && t.watchers == s.watchers)
    ensures Create(s, fd, mask, structMem, luck, listMem).1.Some? <==>
            structMem && Registrable(s, fd, mask, s.nextWatcher, luck) && listMem
  {
    if !structMem {
      assert Create(s, fd, mask, structMem, luck, listMem) == (s, None);
    } else {
      var (t1, code) := Start(Newborn(s, fd, mask), s.nextWatcher, luck);
      NewbornKeepsInv(s, fd, mask);
      StartEffect(Newborn(s, fd, mask), s.nextWatcher, luck);
      CreateIsStart(s, t1, code, fd, mask, luck, listMem);
      if Inv(t1) {
        CreateKeeps(s, t1, code, fd, mask, luck, listMem);
      } else {
        CreateBreaks(s, t1, code, Create(s, fd, mask, true, luck, listMem).0, fd, mask, luck, listMem);
      }
    }
  }

  lemma CreateKeeps(s: State, t1: State, code: Code, fd: int, mask: Mask, luck: Luck, listMem: bool)
    requires Inv(s) && (t1, code) == Start(Newborn(s, fd, mask), s.nextWatcher, luck) && Inv(t1)
    ensures var (t, made) := Create(s, fd, mask, true, luck, listMem);
            && Inv(t) && (made.Some? ==> t == t1 && made.value == s.nextWatcher && Born(s, t, fd, mask))
            && (made.None? ==> t.kernel == s.kernel && Owner(t) == Owner(s) && t.watchers == s.watchers)
  {
    var w, a := s.nextWatcher, Newborn(s, fd, mask);
    hide Inv, Create, Start, Joined, Refused, Partial;
    NewbornKeepsInv(s, fd, mask);
    StartEffect(a, w, luck);
    CreateIsStart(s, t1, code, fd, mask, luck, listMem);
    if !code.Ok? {
      RefusedFreed(s, t1, fd, mask, luck.dataMem);
      FreedKeepsInv(t1, w);
    } else if !listMem {
      BirthUndone(s, t1, fd, mask);
    }
  }

  lemma RefusedFreed(s: State, t1: State, fd: int, mask: Mask, evicts: bool)
    requires s.nextWatcher !in s.watchers && Refused(Newborn(s, fd, mask), t1, fd, s.nextWatcher, evicts)
    ensures s.nextWatcher in t1.watchers && !t1.watchers[s.nextWatcher].active && t1.watchers - {s.nextWatcher} == s.watchers
  {
  }

  lemma BirthUndone(s: State, t1: State, fd: int, mask: Mask)
    requires Inv(s) && Inv(t1) && Born(s, t1, fd, mask) && fd !in Owner(s)
    ensures s.nextWatcher in t1.watchers
    ensures var t := FreeStruct(Stop(t1, s.nextWatcher).0, s.nextWatcher);
            Inv(t) && t.kernel == s.kernel && Owner(t) == Owner(s) && t.watchers == s.watchers
  {
    var w := s.nextWatcher;
    BirthDropped(s, t1, fd, mask);
    StopEffect(t1, w);
    FreedAfterStop(s, t1, Stop(t1, w).0, w);
  }

  lemma FreedAfterStop(s: State, t1: State, t2: State, w: nat)
    requires Inv(t2) && w in t1.watchers && t1.watchers[w].active && Dropped(t1, t2, w) && t1.watchers - {w} == s.watchers
    ensures var t := FreeStruct(t2, w);
            Inv(t) && t.kernel == t2.kernel && Owner(t) == Owner(t2) && t.watchers == s.watchers
  {
    FreedKeepsInv(t2, w);
    assert t2.watchers - {w} == s.watchers;
  }

  lemma BirthDropped(s: State, t1: State, fd: int, mask: Mask)
    requires Inv(s) && Inv(t1) && Born(s, t1, fd, mask) && fd !in Owner(s)
    ensures O.Drop(t1.kernel, s.nextWatcher) == s.kernel && O.Drop(Owner(t1), s.nextWatcher) == Owner(s)
    ensures s.nextWatcher in t1.watchers && t1.watchers[s.nextWatcher].active && t1.watchers - {s.nextWatcher} == s.watchers
  {
    var w := s.nextWatcher;
    hide Inv, Owns, Evict, Fill, O.Drop;
    NewbornKeepsInv(s, fd, mask);
    JoinedKeepsInv(Newborn(s, fd, mask), t1, w);
    FilledThenDropped(Newborn(s, fd, mask), t1, w);
  }

  /* ---------------- changing the mask ---------------- */

  /** The change list disables exactly the filters that the new mask gives up, adds exactly those that it
      gains, and deletes none. */
  lemma ChangesAreDifference(fd: int, was: Mask, mask: Mask, w: nat, c: Change)
    ensures c in Changes(fd, was, mask, w) <==>
            match c
            case Disable(n, f) => n == fd && was.Has(f) && !mask.Has(f)
            case Add(n, f, v) => n == fd && v == w && mask.Has(f) && !was.Has(f)
            case Delete(_, _) => false
  {
    assert c.filter == Read || c.filter == Write;
  }

  /** How many filters a change of mask turns on or off. */
  function Turned(was: Mask, mask: Mask): nat { (if was.read != mask.read then 1 else 0) + (if was.write != mask.write then 1 else 0) }

  lemma ChangesSubmitted(kernel: Kernel, files: map<int, nat>, fd: int, was: Mask, mask: Mask, w: nat, applied: nat)
    requires fd in files && forall f: Filter :: was.Has(f) ==> (fd, f) in kernel && kernel[(fd, f)] == w
    ensures var (t, ok) := Submit(kernel, files, Changes(fd, was, mask, w), applied);
            && (ok <==> Turned(was, mask) <= applied)
            && (ok ==> t == Fill(kernel, fd, mask, w))
            && (forall k <- kernel :: k in t && (k.0 != fd ==> t[k] == kernel[k]))
  {
    Masks(was);
    Masks(mask);
    var cs := Changes(fd, was, mask, w);
    assert kernel == Fill(kernel, fd, was, w);
    if |cs| == 1 {
      assert cs == [cs[0]];
      SubmitOne(kernel, files, cs[0], applied);
    } else if |cs| == 2 {
      assert cs == [cs[0], cs[1]];
      SubmitTwo(kernel, files, cs[0], cs[1], applied);
      if applied > 0 {
        SubmitOne(ApplyChange(kernel, cs[0]), files, cs[1], applied - 1);
      }
    }
  }

  /** What kqueue_watcher_update does when it is given a mask that is not stored yet: if the kernel takes all
      the changes it reports success, and the number then has the filters of both masks, those that were
      given up being disabled; if not, an error; and no other number is touched. */
  lemma BackendUpdateEffect(s: State, w: nat, mask: Mask, applied: nat)
    requires Inv(s) && w in s.watchers && Owns(s, s.watchers[w].fd, w)
    ensures var (t, code), x := UpdateBackend(s, w, mask, applied), s.watchers[w];
            && t == s.(kernel := t.kernel)
            && (code.Ok? <==> Turned(x.mask, mask) <= applied) && (code.Ok? || code.SystemError?)
            && (code.Ok? ==> t.kernel == Fill(s.kernel, x.fd, mask, w))
            && (forall k <- s.kernel :: k in t.kernel && (k.0 != x.fd ==> t.kernel[k] == s.kernel[k]))
  {
    var x := s.watchers[w];
    assert x.data;
    assert forall f: Filter :: x.mask.Has(f) ==> (x.fd, f) in s.kernel && s.kernel[(x.fd, f)] == w;
    hide Inv, Owns, Submit, Fill;
    ChangesSubmitted(s.kernel, s.files, x.fd, x.mask, mask, w, applied);
  }

  /** The backend compares the new mask with itself, and so never issues a change. */
  lemma UpdateIssuesNothing(s: State, w: nat, mask: Mask, applied: nat)
    requires w in s.watchers
    ensures Update(s, w, mask, applied)
            == if !s.watchers[w].active then (s, WatcherStopped)
               else (s.(watchers := s.watchers[w := s.watchers[w].(mask := mask)]), if s.watchers[w].data then Ok else InvalidArg)
  {
    assert Changes(s.watchers[w].fd, mask, mask, w) == [];
  }

  /** Masks must not change while a watcher is registered.  Update issues no change, and a later stop
      deletes by the new mask: some filter of w outlives the stop exactly when the new mask misses one
      that was registered, or asks for READ, which stops the deletes, in front of a registered WRITE. */
  lemma UpdateThenStop(s: State, w: nat, mask: Mask, applied: nat)
    requires Inv(s) && w in s.watchers && Owns(s, s.watchers[w].fd, w)
    ensures w in Update(s, w, mask, applied).0.watchers
    ensures var was := s.watchers[w].mask;
            var u := Update(s, w, mask, applied).0;
            && u.kernel == s.kernel
            && ((forall k <- Stop(u, w).0.kernel :: Stop(u, w).0.kernel[k] != w)
                <==> (was.read ==> mask.read) && (was.write ==> mask.write && (mask.read ==> was.read)))
  {
    var x := s.watchers[w];
    assert Record(x.fd, w) in s.records && Recorded(s, w);
    assert x.data;
    OwnEntries(s, w);
    UpdateIssuesNothing(s, w, mask, applied);
    StopAfterUpdate(s, Update(s, w, mask, applied).0, w, mask);
    DeletesByOtherMask(s.kernel, s.files, x.fd, x.mask, mask, w);
  }

  lemma StopAfterUpdate(s: State, u: State, w: nat, mask: Mask)
    requires w in s.watchers && s.watchers[w].active && s.watchers[w].data && Recorded(s, w)
    requires u == s.(watchers := s.watchers[w := s.watchers[w].(mask := mask)])
    ensures Stop(u, w).0.kernel == Submit(s.kernel, s.files, Deletes(s.watchers[w].fd, mask), 2).0
  {
    StopShape(u, w);
  }

  lemma OwnEntries(s: State, w: nat)
    requires Inv(s) && w in s.watchers && Owns(s, s.watchers[w].fd, w)
    ensures var x := s.watchers[w];
            forall k <- s.kernel :: (s.kernel[k] == w <==> k.0 == x.fd && x.mask.Has(k.1)) && (k.0 == x.fd ==> s.kernel[k] == w)
  {
    var x := s.watchers[w];
    forall k <- s.kernel ensures (s.kernel[k] == w <==> k.0 == x.fd && x.mask.Has(k.1)) && (k.0 == x.fd ==> s.kernel[k] == w) {
      assert Owns(s, k.0, s.kernel[k]);
      assert k == (k.0, k.1);
      UniqueMembers(s.records, Record(k.0, s.kernel[k]), Record(x.fd, w));
    }
  }

  lemma DeletesByOtherMask(kernel: Kernel, files: map<int, nat>, fd: int, was: Mask, mask: Mask, w: nat)
    requires fd in files && forall f: Filter :: was.Has(f) ==> (fd, f) in kernel
    requires forall k <- kernel :: (kernel[k] == w <==> k.0 == fd && was.Has(k.1)) && (k.0 == fd ==> kernel[k] == w)
    ensures (forall k <- Submit(kernel, files, Deletes(fd, mask), 2).0 :: Submit(kernel, files, Deletes(fd, mask), 2).0[k] != w)
            <==> (was.read ==> mask.read) && (was.write ==> mask.write && (mask.read ==> was.read))
  {
    var t := Submit(kernel, files, Deletes(fd, mask), 2).0;
    DeletesUnfold(kernel, files, fd, mask);
    Masks(was);
    assert forall k <- t :: k in kernel && t[k] == kernel[k] && k == (k.0, k.1);
    assert (fd, Read) in t <==> was.read && !mask.read;
    assert (fd, Write) in t <==> was.write && (!mask.write || (mask.read && !was.read));
    if (fd, Read) !in t && (fd, Write) !in t {
      forall k <- t ensures t[k] != w {
        assert k == (k.0, k.1) && (k.1 == Read || k.1 == Write);
        assert k.0 != fd;
      }
    }
  }

  /* ---------------- every reachable state ---------------- */

  datatype Step =
    | OpenStep(fd: int)
    | CloseStep(fd: int)
    | CreateStep(fd: int, mask: Mask, structMem: bool, luck: Luck, listMem: bool)
    | StartStep(w: nat, luck: Luck)
    | StopStep(w: nat)
    | DestroyStep(w: nat)

  /** A number is opened when it is free; a watcher is registered on a number that nobody owns, and the
      kernel takes both filters or neither. */
  ghost predicate Enabled(s: State, step: Step)
    requires Recording(s)
  {
    match step
    case OpenStep(fd) => fd !in s.files
    case CloseStep(fd) => true
    case CreateStep(fd, mask, _, luck, _) => fd !in Owner(s) && !Partial(s, fd, mask, luck)
    case StartStep(w, luck) =>
      w in s.watchers && (s.watchers[w].active || (s.watchers[w].fd !in Owner(s) && !Partial(s, s.watchers[w].fd, s.watchers[w].mask, luck)))
    case StopStep(w) => w in s.watchers
    case DestroyStep(w) => w in s.watchers
  }

  ghost function Next(s: State, step: Step): State
    requires Recording(s) && Enabled(s, step)
  {
    match step
    case OpenStep(fd) => Open(s, fd)
    case CloseStep(fd) => Close(s, fd)
    case CreateStep(fd, mask, structMem, luck, listMem) => Create(s, fd, mask, structMem, luck, listMem).0
    case StartStep(w, luck) => Start(s, w, luck).0
    case StopStep(w) => Stop(s, w).0
    case DestroyStep(w) => Destroy(s, w)
  }

  lemma NextKeepsInv(s: State, step: Step)
    requires Inv(s) && Enabled(s, step)
    ensures Inv(Next(s, step))
  {
    match step
    case OpenStep(fd) => OpenKeepsInv(s, fd);
    case CloseStep(fd) => CloseKeepsInv(s, fd);
    case CreateStep(fd, mask, structMem, luck, listMem) => CreateEffect(s, fd, mask, structMem, luck, listMem);
    case StartStep(w, luck) =>
      if !s.watchers[w].active {
        StartEffect(s, w, luck);
      }
    case StopStep(w) => StopEffect(s, w);
    case DestroyStep(w) => DestroyEffect(s, w);
  }

  ghost predicate IsRun(run: seq<State>, steps: seq<Step>)
  {
    && |run| == |steps| + 1 && run[0] == START
    && forall i :: 0 <= i < |steps| ==> Recording(run[i]) && Enabled(run[i], steps[i]) && run[i + 1] == Next(run[i], steps[i])
  }

  lemma {:induction false} RunKeepsInv(run: seq<State>, steps: seq<Step>, i: nat)
    requires IsRun(run, steps) && i < |run|
    ensures Inv(run[i])
  {
    if i > 0 {
      RunKeepsInv(run, steps, i - 1);
      NextKeepsInv(run[i - 1], steps[i - 1]);
    }
  }

  /** Per-filter ownership.  After any run, the kernel's entries are exactly the filters of the watchers
      that are active and whose file has not been closed since they were registered; records are unique
      and name live watchers; so no filter names a stopped or destroyed watcher. */
  lemma OwnershipAlways(run: seq<State>, steps: seq<Step>, i: nat)
    requires IsRun(run, steps) && i < |run|
    ensures var s := run[i];
            && (forall fd, f: Filter, w :: (fd, f) in s.kernel && s.kernel[(fd, f)] == w <==> Owns(s, fd, w) && s.watchers[w].mask.Has(f))
            && Unique(s.records) && (forall r <- s.records :: r.watcher in s.watchers)
            && (forall w <- s.watchers :: s.watchers[w].active <==> s.watchers[w].data)
  {
    RunKeepsInv(run, steps, i);
  }
}
