/** The epoll backend's watchers under descriptor recycling (epoll.c, watcher.c).

    A descriptor number denotes a file only until it is closed; the kernel's membership of a file dies
    with it, and the number may then be opened again for another file.  The kernel adds, modifies and
    deletes by number, while the registration records decide by watcher identity.

    `heap` holds the live allocations (watcher structs and their platform_data), whose addresses are
    not reused, and `fault` records a double free.  The outcomes of allocations and system calls that
    the state does not determine are parameters. */
module Epoll {
  import opened Growable
  import opened Options
  import Arrays
  import O = Ownership

  /** pd_watcher_t.  `file` is a history variable: the file that the last successful ADD registered. */
  datatype Watcher = Watcher(fd: int, hasCallback: bool, active: bool, data: Option<nat>, file: nat)

  /** One EPOLL_CTL_DEL: the number, the watcher it was issued for, and the file the number denoted. */
  datatype Del = Del(fd: int, watcher: nat, file: Option<nat>)

  datatype State = State(
    files: map<int, nat>, nextFile: nat, kernel: map<int, nat>,
    records: seq<Record>, capacity: nat,
    watchers: map<nat, Watcher>, list: seq<nat>, listCapacity: nat,
    heap: set<nat>, nextBlock: nat, dels: seq<Del>, fault: bool)

  const START := State(map[], 0, map[], [], 0, map[], [], 16, {}, 0, [], false)

  datatype Code = Ok | NoMemory | SystemError | WatcherStopped

  /** Does calloc of platform_data, the ADD (as far as the kernel is free to refuse it), and the
      growth of the record array succeed? */
  datatype Luck = Luck(dataMem: bool, addOk: bool, growMem: bool)

  /* ---------------- the environment ---------------- */

  function Open(s: State, fd: int): State
  {
    s.(files := s.files[fd := s.nextFile], nextFile := s.nextFile + 1)
  }

  function Close(s: State, fd: int): State
  {
    s.(files := s.files - {fd}, kernel := s.kernel - {fd})
  }

  /* ---------------- epoll.c ---------------- */

  /** free(p), where p may be NULL */
  function Free(s: State, p: Option<nat>): State
  {
    s.(heap := s.heap - Block(p), fault := s.fault || !(Block(p) <= s.heap))
  }

  function Block(p: Option<nat>): set<nat> { if p.Some? then {p.value} else {} }

  function SetWatcher(s: State, w: nat, x: Watcher): State { s.(watchers := s.watchers[w := x]) }

  /** free(watcher->platform_data); watcher->platform_data = NULL */
  function FreeData(s: State, w: nat): State
    requires w in s.watchers
  {
    SetWatcher(Free(s, s.watchers[w].data), w, s.watchers[w].(data := None))
  }

  /** Is a DEL of this number refused for another reason than a closed descriptor? */
  predicate DelFails(s: State, fd: int) { fd in s.files && fd !in s.kernel }

  function KernelDel(s: State, fd: int, w: nat): State
  {
    s.(kernel := s.kernel - {fd}, dels := s.dels + [Del(fd, w, if fd in s.files then Some(s.files[fd]) else None)])
  }

  predicate AddSucceeds(s: State, fd: int, luck: Luck) { fd in s.files && fd !in s.kernel && luck.addOk }

  /** After a successful ADD: record the registration, or undo it when the record array cannot grow. */
  function Track(s: State, w: nat, d: nat, luck: Luck): (State, Code)
    requires w in s.watchers && s.watchers[w].fd in s.files
  {
    var x := s.watchers[w];
    if |s.records| >= s.capacity && !luck.growMem then (Free(KernelDel(s, x.fd, w), Some(d)), NoMemory)
    else
      (s.(records := s.records + [Record(x.fd, w)],
          capacity := Arrays.Grown(s.capacity, |s.records|, luck.growMem),
          watchers := s.watchers[w := x.(data := Some(d), file := s.files[x.fd])]), Ok)
  }

  function Register(s: State, w: nat, luck: Luck): (State, Code)
    requires w in s.watchers
  {
    if !luck.dataMem then (s, NoMemory)
    else
      var x, d := s.watchers[w], s.nextBlock;
      var s1 := s.(heap := s.heap + {d}, nextBlock := d + 1, records := Evict(s.records, x.fd, w));
      if !AddSucceeds(s1, x.fd, luck) then (Free(s1, Some(d)), SystemError)
      else
        Track(s1.(kernel := s1.kernel[x.fd := w]), w, d, luck)
  }

  function Unregister(s: State, w: nat): (State, Code)
    requires w in s.watchers
  {
    var i := FindWatcher(s.records, w);
    if i < |s.records| then
      var s1 := KernelDel(s, s.watchers[w].fd, w);
      if DelFails(s, s.watchers[w].fd) then (s1, SystemError)
      else (FreeData(s1.(records := SwapRemove(s1.records, i)), w), Ok)
    else (FreeData(s, w), Ok)
  }

  /** EPOLL_CTL_MOD by number: the kernel's entry then names this watcher. */
  function Update(s: State, w: nat): (State, Code)
    requires w in s.watchers
  {
    var x := s.watchers[w];
    if !x.active then (s, WatcherStopped)
    else if x.fd !in s.files || x.fd !in s.kernel then (s, SystemError)
    else (s.(kernel := s.kernel[x.fd := w]), Ok)
  }

  /* ---------------- watcher.c ---------------- */

  function FreeStruct(s: State, w: nat): State
  {
    Free(s.(watchers := s.watchers - {w}), Some(w))
  }

  /** pd_watcher_init: register with the backend, then join the loop's list or undo the registration. */
  function Init(s: State, w: nat, luck: Luck, listMem: bool): (r: (State, bool))
    requires w in s.watchers
    ensures r.1 ==> w in r.0.watchers
  {
    var (s1, code) := Register(s, w, luck);
    if !code.Ok? then (s1, false)
    else if |s1.list| >= s1.listCapacity && !listMem then (Unregister(s1, w).0, false)
    else (s1.(list := s1.list + [w], listCapacity := Arrays.Grown(s1.listCapacity, |s1.list|, listMem)), true)
  }

  function Create(s: State, fd: int, hasCallback: bool, structMem: bool, luck: Luck, listMem: bool): (r: (State, Option<nat>))
    ensures r.1.Some? ==> r.1.value in r.0.watchers
  {
    if !structMem then (s, None)
    else
      var w := s.nextBlock;
      var s1 := SetWatcher(s.(heap := s.heap + {w}, nextBlock := w + 1), w, Watcher(fd, hasCallback, true, None, 0));
      var (s2, ok) := Init(s1, w, luck, listMem);
      if ok then (s2, Some(w)) else (FreeStruct(s2, w), None)
  }

  function SetActive(s: State, w: nat, active: bool): State
    requires w in s.watchers
  {
    SetWatcher(s, w, s.watchers[w].(active := active))
  }

  function Start(s: State, w: nat, luck: Luck): (State, Code)
    requires w in s.watchers
  {
    if s.watchers[w].active then (s, Ok)
    else
      var (s1, code) := Register(SetActive(s, w, true), w, luck);
      if code.Ok? then (s1, Ok) else (SetActive(s1, w, false), code)
  }

  function Stop(s: State, w: nat): (State, Code)
    requires w in s.watchers
  {
    if !s.watchers[w].active then (s, Ok)
    else
      var (s1, code) := Unregister(SetActive(s, w, false), w);
      if code.Ok? then (s1, Ok) else (SetActive(s1, w, true), code)
  }

  function Cleanup(s: State, w: nat): State
    requires w in s.watchers
  {
    var s1 := Unregister(s, w).0;
    s1.(list := Without(s1.list, w))
  }

  function Destroy(s: State, w: nat): State
    requires w in s.watchers
  {
    FreeStruct(Cleanup(Stop(s, w).0, w), w)
  }

  /* ---------------- the ownership invariant ---------------- */

  /** Watcher w is active, and its file has not been closed since it was registered. */
  predicate Owns(s: State, fd: int, w: nat)
  {
    && w in s.watchers && s.watchers[w].active && s.watchers[w].fd == fd
    && fd in s.files && s.files[fd] == s.watchers[w].file
  }

  /** The kernel set is exactly the set of watchers that own their descriptor; each kernel entry has
      its record; records are unique, and a record of a live watcher is that of an active one. */
  ghost predicate Ownership(s: State)
  {
    && Unique(s.records)
    && (forall fd <- s.kernel :: Owns(s, fd, s.kernel[fd]) && Record(fd, s.kernel[fd]) in s.records)
    && (forall w <- s.watchers :: Owns(s, s.watchers[w].fd, w) ==> s.watchers[w].fd in s.kernel && s.kernel[s.watchers[w].fd] == w)
    && (forall r <- s.records :: r.watcher in s.watchers ==> s.watchers[r.watcher].active && s.watchers[r.watcher].fd == r.ident)
    && (forall fd <- s.files :: s.files[fd] < s.nextFile)
    && (forall w <- s.watchers :: s.watchers[w].active ==> s.watchers[w].file < s.nextFile)
  }

  /** A watcher is active exactly when it has platform_data, and nothing is freed twice. */
  ghost predicate Memory(s: State)
  {
    && !s.fault
    && (forall b <- s.heap :: b < s.nextBlock)
    && (forall r <- s.records :: r.watcher < s.nextBlock)
    && (forall w <- s.watchers :: w in s.heap)
    && (forall w <- s.watchers :: s.watchers[w].active <==> s.watchers[w].data.Some?)
    && (forall w <- s.watchers :: s.watchers[w].data.Some? ==> s.watchers[w].data.value in s.heap && s.watchers[w].data.value !in s.watchers)
    && (forall w, v :: w in s.watchers && v in s.watchers && w != v && s.watchers[w].data.Some? ==> s.watchers[w].data != s.watchers[v].data)
  }

  /** The loop's list holds the live watchers, each once. */
  ghost predicate Listed(s: State)
  {
    NoDuplicates(s.list) && forall w :: w in s.list <==> w in s.watchers
  }

  ghost predicate Inv(s: State) { Ownership(s) && Memory(s) && Listed(s) }

  lemma OpenKeepsInv(s: State, fd: int)
    requires Inv(s) && fd !in s.files
    ensures Inv(Open(s, fd))
  {
  }

  lemma CloseKeepsInv(s: State, fd: int)
    requires Inv(s)
    ensures Inv(Close(s, fd))
  {
  }

  /* ---------------- unregistering ---------------- */

  /** Does w hold the record of its descriptor? */
  predicate Recorded(s: State, w: nat) { FindWatcher(s.records, w) < |s.records| }

  /** When a DEL of w is issued the number denotes w's own file, unless w's file has been closed; so
      the DEL removes w's entry and no other. */
  lemma DelHitsOwnEntry(s: State, w: nat)
    requires Ownership(s) && w in s.watchers && s.watchers[w].active
    ensures Recorded(s, w) ==> s.kernel - {s.watchers[w].fd} == O.Drop(s.kernel, w)
    ensures !Recorded(s, w) ==> O.Drop(s.kernel, w) == s.kernel
  {
    var x := s.watchers[w];
    assert forall fd <- s.kernel :: s.kernel[fd] == w ==> Owns(s, fd, w);
    if Recorded(s, w) {
      var r := s.records[FindWatcher(s.records, w)];
      assert r in s.records && r.watcher == w && r.ident == x.fd;
      if x.fd in s.kernel {
        assert Record(x.fd, s.kernel[x.fd]) in s.records;
        UniqueMembers(s.records, r, Record(x.fd, s.kernel[x.fd]));
        assert s.kernel[x.fd] == w;
      }
      forall fd ensures fd in s.kernel && fd != x.fd <==> fd in O.Drop(s.kernel, w) {
      }
      assert s.kernel - {x.fd} == O.Drop(s.kernel, w);
    } else {
      forall fd | fd in s.kernel ensures s.kernel[fd] != w {
        assert Record(fd, s.kernel[fd]) in s.records;
      }
    }
  }

  /** State t is s after w was dropped from the kernel and the records. */
  ghost predicate Dropped(s: State, t: State, w: nat)
  {
    && w in s.watchers && t.kernel == O.Drop(s.kernel, w) && t.files == s.files && t.nextFile == s.nextFile
    && Unique(t.records) && (forall r :: r in t.records <==> r in s.records && r.watcher != w)
    && t.watchers == s.watchers[w := s.watchers[w].(active := false, data := None)]
  }

  lemma DroppedKeepsOwnership(s: State, t: State, w: nat)
    requires Ownership(s) && Dropped(s, t, w)
    ensures Ownership(t)
  {
    forall fd <- t.kernel ensures Owns(t, fd, t.kernel[fd]) && Record(fd, t.kernel[fd]) in t.records {
      assert Owns(s, fd, s.kernel[fd]);
    }
    forall v <- t.watchers | Owns(t, t.watchers[v].fd, v) ensures t.watchers[v].fd in t.kernel && t.kernel[t.watchers[v].fd] == v {
      assert Owns(s, s.watchers[v].fd, v);
    }
  }

  lemma RecordsWithout(rs: seq<Record>, w: nat)
    requires Unique(rs)
    ensures var i := FindWatcher(rs, w);
            var ts := if i < |rs| then SwapRemove(rs, i) else rs;
            Unique(ts) && forall r :: r in ts <==> r in rs && r.watcher != w
  {
    var i := FindWatcher(rs, w);
    if i < |rs| {
      SwapRemoveMembers(rs, i);
      assert forall r <- rs :: r.watcher == w ==> r == rs[i];
    }
  }

  /** What unregistering does to the watcher itself, whatever the records say. */
  lemma UnregisterShape(s: State, w: nat)
    requires w in s.watchers && s.watchers[w].active
    ensures var (t, code) := Unregister(SetActive(s, w, false), w);
            && (code == if Recorded(s, w) && DelFails(s, s.watchers[w].fd) then SystemError else Ok)
            && t.kernel == (if Recorded(s, w) then s.kernel - {s.watchers[w].fd} else s.kernel)
            && t.files == s.files && t.nextFile == s.nextFile
            && (code.Ok? ==> t.watchers == s.watchers[w := s.watchers[w].(active := false, data := None)])
            && (code.Ok? ==> t.records == if Recorded(s, w) then SwapRemove(s.records, FindWatcher(s.records, w)) else s.records)
            && (code.SystemError? ==> t == SetActive(s, w, false).(dels := t.dels))
  {
    hide FindWatcher, SwapRemove;
    if s.watchers[w].fd !in s.kernel {
      assert s.kernel - {s.watchers[w].fd} == s.kernel;
    }
  }

  lemma UnregisterEffect(s: State, w: nat)
    requires Ownership(s) && w in s.watchers && s.watchers[w].active
    ensures var (t, code) := Unregister(SetActive(s, w, false), w);
            && (code == if Recorded(s, w) && DelFails(s, s.watchers[w].fd) then SystemError else Ok)
            && (code.Ok? ==> Dropped(s, t, w))
            && (code.SystemError? ==> t == SetActive(s, w, false).(dels := t.dels) && O.Drop(s.kernel, w) == s.kernel)
  {
    DelHitsOwnEntry(s, w);
    RecordsWithout(s.records, w);
    UnregisterShape(s, w);
  }

  lemma UnregisterMemory(s: State, w: nat)
    requires Memory(s) && w in s.watchers && s.watchers[w].active
    ensures var (t, code) := Unregister(SetActive(s, w, false), w);
            code.Ok? ==> t.heap == s.heap - {s.watchers[w].data.value} && t.nextBlock == s.nextBlock && !t.fault && t.list == s.list
  {
  }

  /** pd_watcher_stop removes exactly the watcher's own kernel entry and record, whoever owns the
      descriptor number by now; or, when DEL reports that the recycled number is not in the set, it
      changes nothing. */
  lemma StopEffect(s: State, w: nat)
    requires Inv(s) && w in s.watchers
    ensures var (t, code) := Stop(s, w);
            && Inv(t)
            && (code == if s.watchers[w].active && Recorded(s, w) && DelFails(s, s.watchers[w].fd) then SystemError else Ok)
            && t.kernel == O.Drop(s.kernel, w)
            && (code.Ok? && s.watchers[w].active ==> Dropped(s, t, w))
            && (code.SystemError? || !s.watchers[w].active ==> t == s.(dels := t.dels))
  {
    var t := Stop(s, w).0;
    if s.watchers[w].active {
      UnregisterEffect(s, w);
      UnregisterMemory(s, w);
      if Stop(s, w).1.Ok? {
        DroppedKeepsOwnership(s, t, w);
        DroppedKeepsMemory(s, t, w);
      } else {
        assert s.watchers[w := s.watchers[w].(active := false)][w := s.watchers[w]] == s.watchers;
        LogKeepsInv(s, t);
      }
    } else {
      NotActiveNotInKernel(s, w);
    }
  }

  lemma LogKeepsInv(s: State, t: State)
    requires Inv(s) && t == s.(dels := t.dels)
    ensures Inv(t)
  {
  }

  lemma NotActiveNotInKernel(s: State, w: nat)
    requires Ownership(s) && (w in s.watchers ==> !s.watchers[w].active)
    ensures O.Drop(s.kernel, w) == s.kernel
  {
    forall fd | fd in s.kernel ensures s.kernel[fd] != w {
      assert Owns(s, fd, s.kernel[fd]);
    }
  }

  lemma DroppedKeepsMemory(s: State, t: State, w: nat)
    requires Memory(s) && Listed(s) && Dropped(s, t, w) && s.watchers[w].active
    requires t.heap == s.heap - {s.watchers[w].data.value} && t.nextBlock == s.nextBlock && !t.fault && t.list == s.list
    ensures Memory(t) && Listed(t)
  {
  }

  /* ---------------- registering ---------------- */

  /** State t is a after the inactive watcher w joined the kernel set and the records. */
  ghost predicate Joined(a: State, t: State, w: nat)
  {
    && w in a.watchers && !a.watchers[w].active
    && var x := a.watchers[w];
       && x.fd in a.files && x.fd !in a.kernel
       && t.kernel == a.kernel[x.fd := w] && t.files == a.files && t.nextFile == a.nextFile
       && t.records == Evict(a.records, x.fd, w) + [Record(x.fd, w)]
       && t.watchers == a.watchers[w := x.(active := true, data := Some(a.nextBlock), file := a.files[x.fd])]
       && t.heap == a.heap + {a.nextBlock} && t.nextBlock == a.nextBlock + 1
       && t.list == a.list && t.fault == a.fault
  }

  /** A registration that failed changed nothing but the records, where it may have evicted, and the
      allocation counters. */
  ghost predicate Refused(a: State, t: State, fd: int, w: nat, evicts: bool)
  {
    && t == a.(records := t.records, nextBlock := t.nextBlock, capacity := t.capacity, dels := t.dels)
    && t.records == (if evicts then Evict(a.records, fd, w) else a.records)
    && t.nextBlock >= a.nextBlock
  }

  lemma RegisterEffect(a: State, w: nat, luck: Luck)
    requires Memory(a) && w in a.watchers && !a.watchers[w].active
    ensures var (t, code) := Register(SetActive(a, w, true), w, luck);
            && (code.Ok? ==> Joined(a, t, w))
            && (!code.Ok? ==> Refused(SetActive(a, w, true), t, a.watchers[w].fd, w, luck.dataMem))
            && (code.Ok? ==> luck.dataMem && AddSucceeds(a, a.watchers[w].fd, luck))
  {
    var s := SetActive(a, w, true);
    var x := s.watchers[w];
    assert a.nextBlock !in a.heap;
    assert s.heap + {s.nextBlock} - {s.nextBlock} == s.heap;
    if x.fd !in s.kernel {
      assert s.kernel[x.fd := w] - {x.fd} == s.kernel;
    }
  }

  lemma NoRecordOfInactive(a: State, w: nat)
    requires Ownership(a) && w in a.watchers && !a.watchers[w].active
    ensures forall r <- a.records :: r.watcher != w
    ensures forall fd <- a.kernel :: a.kernel[fd] != w
  {
    forall fd <- a.kernel ensures a.kernel[fd] != w {
      assert Owns(a, fd, a.kernel[fd]);
    }
  }

  lemma JoinedRecords(a: State, t: State, w: nat)
    requires Ownership(a) && Joined(a, t, w)
    ensures Unique(t.records)
    ensures forall r :: r in t.records <==> (r in a.records && r.ident != a.watchers[w].fd) || r == Record(a.watchers[w].fd, w)
  {
    var x := a.watchers[w];
    NoRecordOfInactive(a, w);
    EvictMembers(a.records, x.fd, w);
    AppendIsMapInsert(Evict(a.records, x.fd, w), Record(x.fd, w));
  }

  lemma JoinedKeepsOwnership(a: State, t: State, w: nat)
    requires Ownership(a) && Joined(a, t, w)
    ensures Ownership(t)
  {
    var x := a.watchers[w];
    NoRecordOfInactive(a, w);
    JoinedRecords(a, t, w);
    forall fd <- t.kernel ensures Owns(t, fd, t.kernel[fd]) && Record(fd, t.kernel[fd]) in t.records {
      if fd != x.fd {
        assert Owns(a, fd, a.kernel[fd]);
      }
    }
    forall v <- t.watchers | Owns(t, t.watchers[v].fd, v) ensures t.watchers[v].fd in t.kernel && t.kernel[t.watchers[v].fd] == v {
      if v != w {
        assert Owns(a, a.watchers[v].fd, v);
      }
    }
  }

  lemma JoinedKeepsMemory(a: State, t: State, w: nat)
    requires Memory(a) && Joined(a, t, w) && (forall r <- t.records :: r.watcher < t.nextBlock)
    ensures Memory(t)
  {
  }

  /** Eviction comes before the ADD that may fail.  It is harmless exactly when the number is not in
      the kernel set; otherwise the registered owner of the number loses its record. */
  lemma EvictionIsHarmlessIff(a: State, t: State, fd: int, w: nat)
    requires Ownership(a) && (forall k <- a.kernel :: a.kernel[k] != w)
    requires t == a.(records := Evict(a.records, fd, w), nextBlock := t.nextBlock, capacity := t.capacity, dels := t.dels)
    ensures Ownership(t) <==> fd !in a.kernel
  {
    EvictMembers(a.records, fd, w);
    if fd in a.kernel {
      assert Record(fd, a.kernel[fd]) !in t.records;
    } else {
      forall k <- t.kernel ensures Owns(t, k, t.kernel[k]) && Record(k, t.kernel[k]) in t.records {
        assert Owns(a, k, a.kernel[k]);
      }
      forall v <- t.watchers | Owns(t, t.watchers[v].fd, v) ensures t.watchers[v].fd in t.kernel && t.kernel[t.watchers[v].fd] == v {
        assert Owns(a, a.watchers[v].fd, v);
      }
    }
  }

  lemma EvictKeepsBound(rs: seq<Record>, fd: int, w: nat, n: nat)
    requires Unique(rs) && forall r <- rs :: r.watcher < n
    ensures forall r <- Evict(rs, fd, w) :: r.watcher < n
  {
    EvictMembers(rs, fd, w);
  }

  /** Watcher w can be registered on fd: its platform_data can be allocated, fd is open and not in the
      kernel set, the kernel has no other reason to refuse, and the record fits after the eviction. */
  predicate Registrable(s: State, fd: int, w: nat, luck: Luck)
  {
    luck.dataMem && fd in s.files && fd !in s.kernel && luck.addOk && (|Evict(s.records, fd, w)| < s.capacity || luck.growMem)
  }

  /** The code of a registration, from the state before it. */
  lemma RegisterCode(s: State, w: nat, luck: Luck)
    requires w in s.watchers
    ensures var code, fd := Register(s, w, luck).1, s.watchers[w].fd;
            && (code.Ok? <==> Registrable(s, fd, w, luck))
            && (code.SystemError? <==> luck.dataMem && (fd !in s.files || fd in s.kernel || !luck.addOk))
            && (code.Ok? || code.SystemError? || code.NoMemory?)
  {
    hide Evict;
  }

  /** pd_watcher_start.  It succeeds exactly when the watcher is registrable, and reports a system error
      exactly when the kernel refuses.  A failed start leaves the kernel set, the watcher list and every
      watcher as they were; and the ownership invariant survives exactly when the number was not already
      in the kernel set (or the platform_data allocation failed before the eviction). */
  lemma StartEffect(s: State, w: nat, luck: Luck)
    requires Inv(s) && w in s.watchers && !s.watchers[w].active
    ensures var (t, code) := Start(s, w, luck);
            && (code.Ok? ==> Joined(s, t, w))
            && (!code.Ok? ==> Refused(s, t, s.watchers[w].fd, w, luck.dataMem))
            && (Inv(t) <==> !(luck.dataMem && s.watchers[w].fd in s.kernel))
    ensures var code, fd := Start(s, w, luck).1, s.watchers[w].fd;
            && (code.Ok? <==> Registrable(s, fd, w, luck))
            && (code.SystemError? <==> luck.dataMem && (fd !in s.files || fd in s.kernel || !luck.addOk))
            && (code.Ok? || code.SystemError? || code.NoMemory?)
  {
    RegisterEffect(s, w, luck);
    RegisterCode(SetActive(s, w, true), w, luck);
    assert s.watchers[w := s.watchers[w].(active := true)][w := s.watchers[w]] == s.watchers;
    if Start(s, w, luck).1.Ok? {
      JoinedKeepsInv(s, Start(s, w, luck).0, w);
    } else {
      RefusedKeepsInvIff(s, Start(s, w, luck).0, w, luck.dataMem);
    }
  }

  lemma ActiveStart(s: State, w: nat, luck: Luck)
    requires w in s.watchers && s.watchers[w].active
    ensures Start(s, w, luck) == (s, Ok)
  {
  }

  lemma JoinedKeepsInv(s: State, t: State, w: nat)
    requires Inv(s) && Joined(s, t, w)
    ensures Inv(t)
  {
    EvictKeepsBound(s.records, s.watchers[w].fd, w, s.nextBlock);
    JoinedKeepsOwnership(s, t, w);
    JoinedKeepsMemory(s, t, w);
  }

  lemma RefusedKeepsInvIff(s: State, t: State, w: nat, evicts: bool)
    requires Inv(s) && w in s.watchers && !s.watchers[w].active && Refused(s, t, s.watchers[w].fd, w, evicts)
    ensures Inv(t) <==> !(evicts && s.watchers[w].fd in s.kernel)
  {
    var fd := s.watchers[w].fd;
    NoRecordOfInactive(s, w);
    EvictKeepsBound(s.records, fd, w, s.nextBlock);
    if evicts {
      EvictionIsHarmlessIff(s, t, fd, w);
    }
  }

  /* ---------------- creating and destroying ---------------- */

  /** The struct has been allocated and filled in, but not registered. */
  function Newborn(s: State, fd: int, hasCallback: bool): State
  {
    SetWatcher(s.(heap := s.heap + {s.nextBlock}, nextBlock := s.nextBlock + 1), s.nextBlock,
               Watcher(fd, hasCallback, false, None, 0))
  }

  lemma NewbornKeepsInv(s: State, fd: int, hasCallback: bool)
    requires Inv(s)
    ensures s.nextBlock !in s.heap && s.nextBlock !in s.watchers && s.nextBlock !in s.list
    ensures Ownership(Newborn(s, fd, hasCallback)) && Memory(Newborn(s, fd, hasCallback))
  {
    var t := Newborn(s, fd, hasCallback);
    assert s.nextBlock !in s.watchers;
    forall k <- t.kernel ensures Owns(t, k, t.kernel[k]) {
      assert Owns(s, k, s.kernel[k]);
    }
    forall v <- t.watchers | Owns(t, t.watchers[v].fd, v) ensures t.watchers[v].fd in t.kernel && t.kernel[t.watchers[v].fd] == v {
      assert Owns(s, s.watchers[v].fd, v);
    }
  }

  /** State t is s with a new, registered and listed watcher. */
  ghost predicate Born(s: State, t: State, fd: int, hasCallback: bool)
  {
    var w := s.nextBlock;
    && fd in s.files && fd !in s.kernel
    && t.kernel == s.kernel[fd := w] && t.files == s.files && t.nextFile == s.nextFile
    && t.records == Evict(s.records, fd, w) + [Record(fd, w)]
    && t.watchers == s.watchers[w := Watcher(fd, hasCallback, true, Some(w + 1), s.files[fd])]
    && t.list == s.list + [w] && t.heap == s.heap + {w, w + 1} && t.nextBlock == w + 2 && t.fault == s.fault
  }

  /** State t is s, except that stale records may have been evicted and counters advanced. */
  ghost predicate Unborn(s: State, t: State, fd: int, evicts: bool)
  {
    && t == s.(records := t.records, nextBlock := t.nextBlock, capacity := t.capacity, dels := t.dels)
    && t.nextBlock >= s.nextBlock
    && t.records == if evicts then Evict(s.records, fd, s.nextBlock) else s.records
  }

  lemma SwapRemoveLast(rs: seq<Record>, r: Record)
    requires forall q <- rs :: q.watcher != r.watcher
    ensures FindWatcher(rs + [r], r.watcher) == |rs| && SwapRemove(rs + [r], |rs|) == rs
  {
    forall k | 0 <= k < |rs| ensures (rs + [r])[k].watcher != r.watcher {
      assert rs[k] in rs;
    }
    assert (rs + [r])[|rs|].watcher == r.watcher;
  }

  /** A new address is in use nowhere. */
  lemma NewIdIsNew(a: State, fd: int)
    requires Inv(a)
    ensures forall r <- Evict(a.records, fd, a.nextBlock) :: r.watcher != a.nextBlock
    ensures forall k <- a.kernel :: a.kernel[k] != a.nextBlock
    ensures a.nextBlock !in a.watchers && a.nextBlock !in a.list && a.nextBlock !in a.heap && a.nextBlock + 1 !in a.heap
  {
    EvictMembers(a.records, fd, a.nextBlock);
    NewbornKeepsInv(a, fd, false);
    forall k <- a.kernel ensures a.kernel[k] != a.nextBlock {
      assert Owns(a, k, a.kernel[k]);
    }
  }

  /** Unregistering a watcher whose record is the last one. */
  lemma UnregisterLast(t: State, w: nat, rs: seq<Record>, d: nat)
    requires w in t.watchers && t.watchers[w].data == Some(d) && d in t.heap && t.watchers[w].fd in t.kernel
    requires t.records == rs + [Record(t.watchers[w].fd, w)] && forall r <- rs :: r.watcher != w
    ensures var u := Unregister(t, w).0;
            u == t.(kernel := t.kernel - {t.watchers[w].fd}, records := rs, dels := u.dels,
                    watchers := t.watchers[w := t.watchers[w].(data := None)], heap := t.heap - {d})
  {
    SwapRemoveLast(rs, Record(t.watchers[w].fd, w));
  }

  /** Undoing a registration when the watcher list cannot grow. */
  lemma UndoRegistration(s: State, t: State, fd: int, hasCallback: bool)
    requires Inv(s) && Joined(Newborn(s, fd, hasCallback), t, s.nextBlock)
    requires t == s.(kernel := t.kernel, records := t.records, capacity := t.capacity, watchers := t.watchers,
                     heap := t.heap, nextBlock := t.nextBlock)
    ensures Unborn(s, FreeStruct(Unregister(t, s.nextBlock).0, s.nextBlock), fd, true)
  {
    var w := s.nextBlock;
    hide Inv, Ownership, Memory, Evict, SwapRemove, Unregister;
    NewIdIsNew(s, fd);
    UnregisterLast(t, w, Evict(s.records, fd, w), w + 1);
    UnregisteredAgain(s, t, Unregister(t, w).0, w, w + 1);
  }

  /** Taking away what a registration added. */
  lemma UnregisteredAgain(s: State, t: State, u: State, w: nat, d: nat)
    requires w in t.watchers && w !in s.watchers && w !in s.heap && d !in s.heap && d != w
    requires t.heap == s.heap + {w, d} && t.watchers == s.watchers[w := t.watchers[w]] && t.watchers[w].data == Some(d)
    requires t.watchers[w].fd !in s.kernel && t.kernel == s.kernel[t.watchers[w].fd := w]
    requires u == t.(kernel := t.kernel - {t.watchers[w].fd}, records := u.records, dels := u.dels,
                     watchers := t.watchers[w := t.watchers[w].(data := None)], heap := t.heap - {d})
    ensures u.kernel == s.kernel && u.watchers - {w} == s.watchers && u.heap - {w} == s.heap
  {
  }

  lemma FailedBirth(s: State, t: State, fd: int, hasCallback: bool, evicts: bool)
    requires Inv(s) && Refused(SetActive(Newborn(s, fd, hasCallback), s.nextBlock, true), t, fd, s.nextBlock, evicts)
    ensures Unborn(s, FreeStruct(t, s.nextBlock), fd, evicts)
  {
    NewbornKeepsInv(s, fd, hasCallback);
    assert t.watchers - {s.nextBlock} == s.watchers;
    assert t.heap - {s.nextBlock} == s.heap;
  }

  lemma BornShape(s: State, t: State, t': State, fd: int, hasCallback: bool)
    requires Joined(Newborn(s, fd, hasCallback), t, s.nextBlock)
    requires t' == t.(list := s.list + [s.nextBlock], listCapacity := t'.listCapacity)
    ensures Born(s, t', fd, hasCallback)
  {
    assert t'.watchers == s.watchers[s.nextBlock := Watcher(fd, hasCallback, true, Some(s.nextBlock + 1), s.files[fd])];
    assert t'.heap == s.heap + {s.nextBlock, s.nextBlock + 1};
  }

  lemma BornKeepsInv(s: State, t: State, t': State, fd: int, hasCallback: bool)
    requires Inv(s) && Joined(Newborn(s, fd, hasCallback), t, s.nextBlock)
    requires t' == t.(list := s.list + [s.nextBlock], listCapacity := t'.listCapacity)
    ensures Inv(t')
  {
    var a := Newborn(s, fd, hasCallback);
    NewbornKeepsInv(s, fd, hasCallback);
    EvictKeepsBound(a.records, fd, s.nextBlock, a.nextBlock);
    assert Listed(t');
    hide Ownership, Listed, Evict;
    JoinedKeepsOwnership(a, t, s.nextBlock);
    JoinedKeepsMemory(a, t, s.nextBlock);
    hide Memory, Joined;
    RelistKeepsOwnership(t, t');
  }

  lemma RelistKeepsOwnership(t: State, t': State)
    requires Ownership(t) && Memory(t) && t' == t.(list := t'.list, listCapacity := t'.listCapacity)
    ensures Ownership(t') && Memory(t')
  {
  }

  lemma UnbornKeepsInvIff(s: State, t: State, fd: int, evicts: bool)
    requires Inv(s) && Unborn(s, t, fd, evicts)
    ensures Inv(t) <==> !(evicts && fd in s.kernel)
  {
    NewbornKeepsInv(s, fd, false);
    NotActiveNotInKernel(s, s.nextBlock);
    assert forall k <- s.kernel :: k in O.Drop(s.kernel, s.nextBlock);
    EvictKeepsBound(s.records, fd, s.nextBlock, s.nextBlock);
    if evicts {
      EvictionIsHarmlessIff(s, t, fd, s.nextBlock);
    }
  }

  lemma CreateCases(s: State, fd: int, hasCallback: bool, luck: Luck, listMem: bool) returns (t1: State, code: Code)
    requires Inv(s)
    ensures (t1, code) == Register(SetActive(Newborn(s, fd, hasCallback), s.nextBlock, true), s.nextBlock, luck)
    ensures t1.list == s.list && t1.listCapacity == s.listCapacity
    ensures var w := s.nextBlock;
            Create(s, fd, hasCallback, true, luck, listMem) ==
              (if !code.Ok? then (FreeStruct(t1, w), None)
               else if |s.list| >= s.listCapacity && !listMem then (FreeStruct(Unregister(t1, w).0, w), None)
               else (t1.(list := s.list + [w], listCapacity := Arrays.Grown(s.listCapacity, |s.list|, listMem)), Some(w)))
  {
    hide Inv, Register, Unregister;
    var w := s.nextBlock;
    var b := SetWatcher(s.(heap := s.heap + {w}, nextBlock := w + 1), w, Watcher(fd, hasCallback, true, None, 0));
    assert SetActive(Newborn(s, fd, hasCallback), w, true).watchers == b.watchers;
    RegisterFrame(b, w, luck);
    t1, code := Register(b, w, luck).0, Register(b, w, luck).1;
  }

  /** pd_watcher_create.  It succeeds exactly when the struct can be allocated, the watcher is registrable
      and the list takes it.  Every failing path (struct, platform_data, ADD, record growth, list growth)
      leaves the kernel set, the watchers, the list and the heap as they were, except that a stale
      record of the number may have been evicted; and the ownership invariant survives exactly when
      the number was not already in the kernel set, or an allocation failed before the eviction. */
  lemma CreateEffect(s: State, fd: int, hasCallback: bool, structMem: bool, luck: Luck, listMem: bool)
    requires Inv(s)
    ensures var (t, w) := Create(s, fd, hasCallback, structMem, luck, listMem);
            && (w.Some? ==> w.value == s.nextBlock && Born(s, t, fd, hasCallback))
            && (w.None? ==> Unborn(s, t, fd, structMem && luck.dataMem))
            && (Inv(t) <==> !(structMem && luck.dataMem && fd in s.kernel))
    ensures Create(s, fd, hasCallback, structMem, luck, listMem).1.Some? <==>
            structMem && Registrable(s, fd, s.nextBlock, luck) && (|s.list| < s.listCapacity || listMem)
  {
    var (t, made) := Create(s, fd, hasCallback, structMem, luck, listMem);
    if structMem {
      var t1, code := CreateCases(s, fd, hasCallback, luck, listMem);
      NewbornKeepsInv(s, fd, hasCallback);
      RegisterEffect(Newborn(s, fd, hasCallback), s.nextBlock, luck);
      RegisterCode(SetActive(Newborn(s, fd, hasCallback), s.nextBlock, true), s.nextBlock, luck);
      if !code.Ok? {
        FailedBirth(s, t1, fd, hasCallback, luck.dataMem);
      } else if made.None? {
        RegisterFrame(SetActive(Newborn(s, fd, hasCallback), s.nextBlock, true), s.nextBlock, luck);
        UndoRegistration(s, t1, fd, hasCallback);
      } else {
        BornShape(s, t1, t, fd, hasCallback);
        BornKeepsInv(s, t1, t, fd, hasCallback);
      }
    }
    if made.None? {
      UnbornKeepsInvIff(s, t, fd, structMem && luck.dataMem);
    }
  }

  lemma RegisterFrame(s: State, w: nat, luck: Luck)
    requires w in s.watchers
    ensures var (t, code) := Register(s, w, luck);
            && t.list == s.list && t.listCapacity == s.listCapacity && w in t.watchers
            && (code.Ok? ==> t == s.(kernel := t.kernel, records := t.records, capacity := t.capacity, watchers := t.watchers,
                                     heap := t.heap, nextBlock := t.nextBlock))
  {
  }

  /** The second unregister, of cleanup, after stop has succeeded or has been refused. */
  lemma CleanupEffect(s: State, w: nat)
    requires Inv(s) && w in s.watchers && (s.watchers[w].active ==> Stuck(s, w))
    ensures var t := Cleanup(s, w);
            t == s.(dels := t.dels, list := Without(s.list, w))
  {
    if s.watchers[w].active {
      assert s.kernel - {s.watchers[w].fd} == s.kernel;
    } else {
      NoRecordOfInactive(s, w);
      assert !Recorded(s, w);
      assert s.watchers[w := s.watchers[w].(data := None)] == s.watchers;
      assert s.heap - {} == s.heap;
    }
  }

  /** A destroy of w gives up on the kernel: DEL reports that the recycled number is not in the set. */
  predicate Stuck(s: State, w: nat)
    requires w in s.watchers
  {
    s.watchers[w].active && Recorded(s, w) && DelFails(s, s.watchers[w].fd)
  }

  function RecordsAfter(s: State, w: nat): seq<Record>
    requires w in s.watchers
  {
    if s.watchers[w].active && Recorded(s, w) && !Stuck(s, w) then SwapRemove(s.records, FindWatcher(s.records, w)) else s.records
  }

  /** State t is s without the watcher w. */
  ghost predicate Destroyed(s: State, t: State, w: nat)
    requires w in s.watchers
  {
    && t == s.(kernel := O.Drop(s.kernel, w), records := RecordsAfter(s, w), dels := t.dels, watchers := s.watchers - {w},
               list := Without(s.list, w),
               heap := s.heap - (if Stuck(s, w) then {} else Block(s.watchers[w].data)) - {w})
  }

  /** pd_watcher_destroy removes exactly the watcher's own kernel entry and its struct, keeps the order
      of the list, and keeps the invariant; it releases the platform_data and the record as well unless
      DEL reported that the recycled number is not in the set, when both unregister calls give up. */
  lemma DestroyEffect(s: State, w: nat)
    requires Inv(s) && w in s.watchers
    ensures Inv(Destroy(s, w)) && Destroyed(s, Destroy(s, w), w)
  {
    DestroyIsStopThenFree(s, w);
    StopFrame(s, w);
    if !s.watchers[w].active {
      NotActiveNotInKernel(s, w);
      assert s.heap - {} == s.heap;
    } else if Stuck(s, w) {
      StuckNotInKernel(s, w);
      assert s.heap - {} == s.heap;
    } else {
      StopSucceeds(s, w);
    }
  }

  lemma StopSucceeds(s: State, w: nat)
    requires Inv(s) && w in s.watchers && s.watchers[w].active && !Stuck(s, w)
    ensures var t := Stop(s, w).0;
            && t == s.(kernel := O.Drop(s.kernel, w), records := RecordsAfter(s, w), dels := t.dels,
                       watchers := s.watchers[w := s.watchers[w].(active := false, data := None)],
                       heap := s.heap - Block(s.watchers[w].data))
            && t.watchers - {w} == s.watchers - {w}
  {
    StopEffect(s, w);
    StopFrame(s, w);
  }

  lemma DestroyIsStopThenFree(s: State, w: nat)
    requires Inv(s) && w in s.watchers
    ensures var s1, t := Stop(s, w).0, Destroy(s, w);
            && w in s1.watchers
            && t == FreeStruct(s1.(dels := t.dels, list := Without(s1.list, w)), w)
            && Inv(t) && s1.kernel == O.Drop(s.kernel, w)
            && (s.watchers[w].active && Stop(s, w).1.Ok? ==> Dropped(s, s1, w))
            && (!s.watchers[w].active || !Stop(s, w).1.Ok? ==> s1 == s.(dels := s1.dels))
            && (Stop(s, w).1.Ok? <==> !Stuck(s, w))
  {
    StopEffect(s, w);
    var s1 := Stop(s, w).0;
    CleanupEffect(s1, w);
    StuckNotInKernel(s1, w);
    StructGone(Cleanup(s1, w), w, s1);
  }

  lemma StopFrame(s: State, w: nat)
    requires Memory(s) && w in s.watchers
    ensures var (t, code) := Stop(s, w);
            && t.capacity == s.capacity && t.listCapacity == s.listCapacity && t.nextBlock == s.nextBlock && t.list == s.list
            && t.files == s.files && t.nextFile == s.nextFile && t.watchers.Keys == s.watchers.Keys && t.fault == s.fault
            && (code.Ok? ==> t.heap == s.heap - Block(s.watchers[w].data))
            && (code.Ok? && s.watchers[w].active ==> t.records == if Recorded(s, w) then SwapRemove(s.records, FindWatcher(s.records, w)) else s.records)
  {
    hide SwapRemove, FindWatcher;
    if s.watchers[w].active {
      UnregisterShape(s, w);
    }
  }

  /** Neither a stopped watcher nor one whose DEL was refused is in the kernel set. */
  lemma StuckNotInKernel(s: State, w: nat)
    requires Ownership(s) && w in s.watchers && (s.watchers[w].active ==> Stuck(s, w))
    ensures O.Drop(s.kernel, w) == s.kernel
  {
    if s.watchers[w].active {
      DelHitsOwnEntry(s, w);
      assert s.kernel - {s.watchers[w].fd} == s.kernel;
    } else {
      NotActiveNotInKernel(s, w);
    }
  }

  lemma StructGone(s: State, w: nat, s0: State)
    requires Inv(s0) && w in s0.watchers && s == s0.(dels := s.dels, list := Without(s0.list, w)) && O.Drop(s0.kernel, w) == s0.kernel
    ensures Inv(FreeStruct(s, w))
  {
    var t := FreeStruct(s, w);
    WithoutMembers(s0.list, w);
    forall fd <- t.kernel ensures Owns(t, fd, t.kernel[fd]) && Record(fd, t.kernel[fd]) in t.records {
      assert Owns(s0, fd, s0.kernel[fd]);
      assert fd in O.Drop(s0.kernel, w);
    }
    forall v <- t.watchers | Owns(t, t.watchers[v].fd, v) ensures t.watchers[v].fd in t.kernel && t.kernel[t.watchers[v].fd] == v {
      assert Owns(s0, s0.watchers[v].fd, v);
    }
  }

  /** pd_watcher_update modifies by number.  It breaks the ownership invariant exactly when the watcher
      is active and the number by now belongs to another one, whose kernel entry it takes over; else it
      changes nothing.  It succeeds exactly when the watcher is active and the number is in the kernel
      set, whoever has it. */
  lemma UpdateEffect(s: State, w: nat)
    requires Inv(s) && w in s.watchers
    ensures var (t, code) := Update(s, w);
            var x := s.watchers[w];
            && (Inv(t) <==> !(x.active && x.fd in s.kernel && s.kernel[x.fd] != w))
            && (Inv(t) ==> t == s)
            && (code.Ok? <==> x.active && x.fd in s.kernel) && (code.WatcherStopped? <==> !x.active)
            && (code.SystemError? <==> x.active && x.fd !in s.kernel)
            && (!Inv(t) ==> t == s.(kernel := s.kernel[x.fd := w]) && Owns(t, x.fd, s.kernel[x.fd]))
  {
    var t, x := Update(s, w).0, s.watchers[w];
    if x.fd in s.kernel {
      assert Owns(s, x.fd, s.kernel[x.fd]);
      if s.kernel[x.fd] == w {
        assert t.kernel == s.kernel;
      } else if x.active {
        assert t.kernel[x.fd] == w;
        assert Owns(t, x.fd, s.kernel[x.fd]);
        assert !Inv(t);
      }
    }
  }

  /* ---------------- every reachable state ---------------- */

  datatype Step =
    | OpenStep(fd: int)
    | CloseStep(fd: int)
    | CreateStep(fd: int, hasCallback: bool, structMem: bool, luck: Luck, listMem: bool)
    | StartStep(w: nat, luck: Luck)
    | StopStep(w: nat)
    | UpdateStep(w: nat)
    | DestroyStep(w: nat)

  /** A number is opened when it is free; a watcher is registered on a number that is not in the kernel
      set, and updated while its own file is open. */
  predicate Enabled(s: State, step: Step)
  {
    match step
    case OpenStep(fd) => fd !in s.files
    case CloseStep(fd) => true
    case CreateStep(fd, _, _, _, _) => fd !in s.kernel
    case StartStep(w, _) => w in s.watchers && (s.watchers[w].active || s.watchers[w].fd !in s.kernel)
    case StopStep(w) => w in s.watchers
    case UpdateStep(w) => w in s.watchers && (s.watchers[w].active ==> Owns(s, s.watchers[w].fd, w))
    case DestroyStep(w) => w in s.watchers
  }

  function Next(s: State, step: Step): State
    requires Enabled(s, step)
  {
    match step
    case OpenStep(fd) => Open(s, fd)
    case CloseStep(fd) => Close(s, fd)
    case CreateStep(fd, hasCallback, structMem, luck, listMem) => Create(s, fd, hasCallback, structMem, luck, listMem).0
    case StartStep(w, luck) => Start(s, w, luck).0
    case StopStep(w) => Stop(s, w).0
    case UpdateStep(w) => Update(s, w).0
    case DestroyStep(w) => Destroy(s, w)
  }

  lemma NextKeepsInv(s: State, step: Step)
    requires Inv(s) && Enabled(s, step)
    ensures Inv(Next(s, step))
  {
    match step
    case OpenStep(fd) => OpenKeepsInv(s, fd);
    case CloseStep(fd) => CloseKeepsInv(s, fd);
    case CreateStep(fd, hasCallback, structMem, luck, listMem) => CreateEffect(s, fd, hasCallback, structMem, luck, listMem);
    case StartStep(w, luck) =>
      if !s.watchers[w].active {
        StartEffect(s, w, luck);
      }
    case StopStep(w) => StopEffect(s, w);
    case UpdateStep(w) => UpdateEffect(s, w);
    case DestroyStep(w) => DestroyEffect(s, w);
  }

  ghost predicate IsRun(run: seq<State>, steps: seq<Step>)
  {
    && |run| == |steps| + 1 && run[0] == START
    && forall i :: 0 <= i < |steps| ==> Enabled(run[i], steps[i]) && run[i + 1] == Next(run[i], steps[i])
  }

  lemma {:induction false} RunKeepsInv(run: seq<State>, steps: seq<Step>, i: nat)
    requires IsRun(run, steps) && i < |run|
    ensures Inv(run[i])
  {
    if i > 0 {
      RunKeepsInv(run, steps, i - 1);
      NextKeepsInv(run[i - 1], steps[i - 1]);
    }
  }

  /** Ownership under descriptor recycling.  After any run of opens, closes, creates, starts, stops,
      updates and destroys, the kernel set is exactly { w.fd -> w : w active, and its file not closed
      since it was registered }; every entry has its record and names a live watcher; each descriptor
      and each watcher has at most one record; a watcher is active exactly when it has platform_data;
      the list holds the live watchers once each; and nothing was ever freed twice. */
  lemma OwnershipAlways(run: seq<State>, steps: seq<Step>, i: nat)
    requires IsRun(run, steps) && i < |run|
    ensures var s := run[i];
            && (forall fd, w :: fd in s.kernel && s.kernel[fd] == w <==> Owns(s, fd, w))
            && (forall fd <- s.kernel :: Record(fd, s.kernel[fd]) in s.records && s.kernel[fd] in s.watchers)
            && Unique(s.records)
            && (forall w <- s.watchers :: s.watchers[w].active <==> s.watchers[w].data.Some?)
            && NoDuplicates(s.list) && (forall w :: w in s.list <==> w in s.watchers)
            && !s.fault
  {
    RunKeepsInv(run, steps, i);
    var s := run[i];
    forall fd, w ensures fd in s.kernel && s.kernel[fd] == w <==> Owns(s, fd, w) {
      assert fd in s.kernel ==> Owns(s, fd, s.kernel[fd]);
    }
  }
}
