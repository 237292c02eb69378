/** Watchers of the IOCP backend: the blocks lent to the kernel, the dispatch of I/O completions, and
    teardown.

    `World` is the memory that the loop thread, the application threads and the kernel share.  Freed
    memory is represented by absence: a block is live while it is in `heap`, a pd_watcher_t while it
    is in `watchers`, and addresses are not reused.  The two fault flags record any access to memory
    that is not live, by the loop or application threads and by the kernel. */
module IocpWatcher {
  import opened IocpPort
  import opened Options

  type byte = bv8

  const BUFFER_SIZE: nat := 4096

  type Buffer = b: seq<byte> | |b| == BUFFER_SIZE witness seq(BUFFER_SIZE, _ => 0)
  type Length = n: nat | n <= BUFFER_SIZE

  /** OVERLAPPED.Internal, as far as the loop distinguishes its values. */
  datatype Status = Success | Cancelled | Failed

  /** pd_iocp_watcher_data_t.  `owner` and `armFailed` are history variables: the watcher it was
      allocated for, and whether a re-issued read failed after its intent had been published. */
  datatype WatcherData = WatcherData(
    owner: nat, pending: bool, stopping: bool, buffer: Buffer, available: Length, internal: Status,
    armFailed: bool)

  /** How far the thread that tears a watcher down has come. */
  datatype Phase = Running | Stopped | MustDrain(thread: nat) | Draining(ticket: nat, thread: nat) | Drained | GaveUp

  /** pd_watcher_t.  The four last fields are history variables: the bytes the kernel delivered, the
      bytes pd_watcher_drain_read returned, the bytes of a read that completed but is not dispatched
      yet, and whether every READ callback so far drained its read completely. */
  datatype Watcher = Watcher(
    hasCallback: bool, active: bool, data: Option<nat>, phase: Phase,
    delivered: seq<byte>, drained: seq<byte>, undispatched: seq<byte>, thorough: bool)

  datatype Event = Read | Write | Hangup | Error | NoEvent
  datatype Call = Call(watcher: nat, event: Event)

  /** A read the kernel holds: it owns the block's OVERLAPPED and buffer until it completes. */
  datatype Lent = Lent(watcher: nat, block: nat)

  datatype World = World(
    heap: map<nat, WatcherData>, freed: set<nat>,
    watchers: map<nat, Watcher>, gone: set<nat>,
    lent: multiset<Lent>, writing: multiset<nat>,
    calls: seq<Call>, loopThread: nat, loopFault: bool, kernelFault: bool)

  const START := World(map[], {}, map[], {}, multiset{}, multiset{}, [], 0, false, false)

  /** What a user callback does: the drain calls it makes, then what it does to its own watcher;
      `reissued` says whether the re-arm after it reaches the kernel. */
  datatype After = Return | StopSelf | UpdateSelf(read: bool, issued: bool) | DestroySelf
  datatype Plan = Plan(lens: seq<nat>, after: After, reissued: bool)

  /* ---------------- operations ---------------- */

  function SetBlock(s: World, b: nat, d: WatcherData): World { s.(heap := s.heap[b := d]) }
  function SetWatcher(s: World, w: nat, x: Watcher): World { s.(watchers := s.watchers[w := x]) }

  /** free(watcher_data); watcher->platform_data = NULL */
  function Free(s: World, w: nat, b: nat): World
    requires w in s.watchers
  {
    if b !in s.heap then s.(loopFault := true)
    else SetWatcher(s.(heap := s.heap - {b}, freed := s.freed + {b}), w, s.watchers[w].(data := None))
  }

  /** Zero the OVERLAPPED, publish the intent and issue the read.  A failed issue retracts the intent
      when dispatch re-arms, and leaves it published when update re-issues. */
  function Arm(s: World, w: nat, b: nat, issued: bool, retract: bool): World
    requires b in s.heap
  {
    var d := s.heap[b].(internal := Success, pending := issued || !retract, armFailed := !issued && !retract);
    var s1 := SetBlock(s, b, d);
    if issued then s1.(lent := s1.lent + multiset{Lent(w, b)}) else s1
  }

  datatype Unregistered = Refused | Released | Deferred | Already

  function Unregister(s: World, w: nat): (World, Unregistered)
    requires w in s.watchers
  {
    match s.watchers[w].data
    case None => (s, Refused)
    case Some(b) =>
      if b !in s.heap then (s.(loopFault := true), Released)
      else if s.heap[b].stopping then (s, Already)
      else if !s.heap[b].pending then (Free(s, w, b), Released)
      else (SetBlock(s, b, s.heap[b].(stopping := true)), Deferred)
  }

  /** pd_watcher_stop, up to the drain it owes when it runs off the loop thread. */
  function Stop(s: World, w: nat, thread: nat): World
    requires w in s.watchers
  {
    if !s.watchers[w].active then s
    else
      var (s1, how) := Unregister(s, w);
      if how.Refused? then s1
      else
        var offLoop := s.loopThread != 0 && thread != s.loopThread;
        SetWatcher(s1, w, s1.watchers[w].(active := false,
                                          phase := if how.Deferred? && offLoop then MustDrain(thread) else Stopped))
  }

  /** pd_watcher_update.  Cancelling a read leaves no trace here: the kernel may complete a read it
      holds as cancelled at any time. */
  function Update(s: World, w: nat, read: bool, issued: bool): World
    requires w in s.watchers
  {
    if !s.watchers[w].active || s.watchers[w].data.None? then s
    else
      var b := s.watchers[w].data.value;
      if b !in s.heap then s.(loopFault := true)
      else if read && !s.heap[b].pending then Arm(s, w, b, issued, false)
      else s
  }

  /** pd_watcher_create: associate the handle, allocate and publish platform_data, arm a READ. */
  function Register(s: World, w: nat, b: nat, hasCallback: bool, read: bool): World
  {
    var d := WatcherData(w, false, false, seq(BUFFER_SIZE, _ => 0), 0, Success, false);
    var s1 := SetBlock(SetWatcher(s, w, Watcher(hasCallback, true, Some(b), Running, [], [], [], true)), b, d);
    if read then Arm(s1, w, b, true, true) else s1
  }

  /** The rest of pd_watcher_destroy: cleanup unregisters a second time, then the struct is freed. */
  function Release(s: World, w: nat): World
    requires w in s.watchers
  {
    var s1 := Unregister(s, w).0;
    s1.(watchers := s1.watchers - {w}, gone := s1.gone + {w})
  }

  /* ---------------- draining a completed read ---------------- */

  function Min(a: nat, b: nat): nat { if a <= b then a else b }

  /** iocp_watcher_drain_read: copy out a prefix, shift the rest to the front of the buffer. */
  function DrainOnce(d: WatcherData, len: nat): (WatcherData, seq<byte>)
  {
    var k := Min(len, d.available);
    (d.(buffer := d.buffer[k..d.available] + d.buffer[d.available - k..], available := d.available - k),
     d.buffer[..k])
  }

  function DrainMany(d: WatcherData, lens: seq<nat>): (r: (WatcherData, seq<byte>))
    ensures r.0 == d.(buffer := r.0.buffer, available := r.0.available)
    decreases |lens|
  {
    if lens == [] then (d, [])
    else
      var (d1, out) := DrainOnce(d, lens[0]);
      var (d2, outs) := DrainMany(d1, lens[1..]);
      (d2, out + outs)
  }

  function Sum(lens: seq<nat>): nat { if lens == [] then 0 else lens[0] + Sum(lens[1..]) }

  /** The bytes of the last read that have not been drained yet. */
  function Front(d: WatcherData): seq<byte>
  {
    d.buffer[..d.available]
  }

  lemma DrainOnceTakesFront(d: WatcherData, len: nat)
    ensures var (d', out) := DrainOnce(d, len);
            var k := Min(len, d.available);
            && out == Front(d)[..k]
            && d'.available == d.available - k
            && Front(d') == Front(d)[k..]
  {
    var k := Min(len, d.available);
    assert Front(DrainOnce(d, len).0) == d.buffer[k..d.available];
  }

  lemma SplitPrefix(f: seq<byte>, i: nat, j: nat)
    requires i + j <= |f|
    ensures f[i..][j..] == f[i + j..]
    ensures f[..i] + f[i..][..j] == f[..i + j]
  {
  }

  /** Any sequence of drain calls inside one callback returns consecutive slices of the stashed read:
      together the first min(sum of the lengths, received) bytes, and the remainder stays at the
      buffer's front for the next call. */
  lemma {:induction false} DrainReturnsPrefix(d: WatcherData, lens: seq<nat>)
    ensures var (d', out) := DrainMany(d, lens);
            var k := Min(Sum(lens), d.available);
            && out == Front(d)[..k]
            && d'.available == d.available - k
            && Front(d') == Front(d)[k..]
    decreases |lens|
  {
    if lens != [] {
      var (d1, out) := DrainOnce(d, lens[0]);
      DrainOnceTakesFront(d, lens[0]);
      DrainReturnsPrefix(d1, lens[1..]);
      SplitPrefix(Front(d), Min(lens[0], d.available), Min(Sum(lens[1..]), d1.available));
    }
  }

  /* ---------------- dispatch of one completion ---------------- */

  function EventOf(d: WatcherData, bytes: nat): Event
  {
    if !d.pending then NoEvent
    else if d.internal.Success? then (if bytes > 0 then Read else Hangup)
    else Error
  }

  function Called(s: World, w: nat, e: Event): World { s.(calls := s.calls + [Call(w, e)]) }

  function RunAfter(s: World, w: nat, after: After): World
    requires w in s.watchers
  {
    match after
    case Return => s
    case StopSelf => Stop(s, w, s.loopThread)
    case UpdateSelf(read, issued) => Update(s, w, read, issued)
    case DestroySelf => Release(Stop(s, w, s.loopThread), w)
  }

  /** Classify a read completion, stash its bytes, clear the pending flag and run the callback's drain
      calls (which only a READ callback makes). */
  function Consume(s: World, w: nat, b: nat, bytes: Length, lens: seq<nat>): World
    requires w in s.watchers && b in s.heap
  {
    var x := s.watchers[w];
    var d := s.heap[b];
    var e := EventOf(d, bytes);
    if e.Read? then
      var (d1, out) := DrainMany(d.(available := bytes, pending := false), lens);
      Called(SetBlock(SetWatcher(s, w, x.(drained := x.drained + out, undispatched := [],
                                          thorough := x.thorough && d1.available == 0)), b, d1), w, e)
    else Called(SetBlock(s, b, d.(pending := false)), w, e)
  }

  /** The re-arm after the callback, on a freshly read platform_data; it does not test pending, and it
      reads the struct whatever the callback did to it. */
  function Rearm(s: World, w: nat, e: Event, issued: bool): World
  {
    if w !in s.watchers then s.(loopFault := true)
    else
      match s.watchers[w].data
      case None => s
      case Some(b) =>
        if !e.Read? then s
        else if b !in s.heap then s.(loopFault := true)
        else if s.heap[b].stopping then s
        else Arm(s, w, b, issued, true)
  }

  /** One iteration of iocp_loop_run's loop on an I/O completion keyed by watcher w. */
  function Dispatch(s: World, w: nat, ov: Overlapped, bytes: nat, plan: Plan): World
    requires ov.Embedded? ==> bytes <= BUFFER_SIZE
  {
    if w !in s.watchers then s.(loopFault := true)
    else if !s.watchers[w].hasCallback || s.watchers[w].data.None? then s
    else
      var b := s.watchers[w].data.value;
      if b !in s.heap then s.(loopFault := true)
      else if s.heap[b].stopping then Free(s, w, b)
      else if ov != Embedded(b) then RunAfter(Called(s, w, Write), w, plan.after)
      else if s.heap[b].internal.Cancelled? then SetBlock(s, b, s.heap[b].(pending := false))
      else
        var s1 := Consume(s, w, b, bytes, plan.lens);
        Rearm(RunAfter(s1, w, plan.after), w, EventOf(s.heap[b], bytes), plan.reissued)
  }

  /** The block after the kernel has written the data and the status into it. */
  function Deposit(d: WatcherData, status: Status, data: seq<byte>): (r: WatcherData)
    requires |data| <= BUFFER_SIZE
    ensures r == d.(buffer := r.buffer, internal := status)
  {
    d.(buffer := data + d.buffer[|data|..], internal := status)
  }

  /** The kernel completes a read it holds: it writes the buffer and the OVERLAPPED. */
  function KernelRead(s: World, l: Lent, status: Status, data: seq<byte>): World
    requires |data| <= BUFFER_SIZE
  {
    var s1 := s.(lent := s.lent - multiset{l});
    if l.block !in s1.heap then s1.(kernelFault := true)
    else
      var d := s1.heap[l.block];
      var s2 := SetBlock(s1, l.block, Deposit(d, status, data));
      if status.Success? && l.watcher in s2.watchers then
        var x := s2.watchers[l.watcher];
        SetWatcher(s2, l.watcher, x.(delivered := x.delivered + data, undispatched := data))
      else s2
  }
}
