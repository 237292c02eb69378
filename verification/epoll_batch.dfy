/** One batch of epoll_loop_run: the callbacks of a batch run in order, and may open, close, create,
    start, stop and destroy meanwhile. */
module EpollBatch {
  import opened Options
  import opened Epoll
  import opened Growable

  /** The data.ptr values that epoll_wait returns: those of different members of the kernel set, and
      NULL for the eventfd. */
  ghost predicate Sampled(s: State, batch: seq<Option<nat>>)
  {
    exists fds: seq<int> :: SampledBy(s, batch, fds)
  }

  ghost predicate SampledBy(s: State, batch: seq<Option<nat>>, fds: seq<int>)
  {
    && |fds| == |batch|
    && (forall i :: 0 <= i < |batch| && batch[i].Some? ==> fds[i] in s.kernel && s.kernel[fds[i]] == batch[i].value)
    && (forall i, j :: 0 <= i < j < |batch| && batch[i].Some? && batch[j].Some? ==> fds[i] != fds[j])
  }

  /** A callback's steps, each allowed when it is taken. */
  predicate Allowed(s: State, script: seq<Step>)
    decreases |script|
  {
    script == [] || (Enabled(s, script[0]) && Allowed(Next(s, script[0]), script[1..]))
  }

  function RunScript(s: State, script: seq<Step>): State
    requires Allowed(s, script)
    decreases |script|
  {
    if script == [] then s else RunScript(Next(s, script[0]), script[1..])
  }

  /** The state, the callbacks run, and whether a dead watcher was dereferenced. */
  datatype Outcome = Outcome(state: State, calls: seq<nat>, touchedDead: bool)
  {
    /** This outcome, followed by the rest of the batch. */
    function Then(batch: seq<Option<nat>>, scripts: seq<seq<Step>>): Outcome
      requires |scripts| == |batch| && AllAllowed(state, batch, scripts)
      decreases |batch|, 1
    {
      var rest := RunBatch(state, batch, scripts);
      Outcome(rest.state, calls + rest.calls, touchedDead || rest.touchedDead)
    }
  }

  /** Does this entry run a callback? */
  predicate Calls(s: State, entry: Option<nat>)
  {
    entry.Some? && entry.value in s.watchers && s.watchers[entry.value].hasCallback
  }

  /** One entry: the eventfd is skipped, and so is a watcher without a callback. */
  function RunEntry(s: State, entry: Option<nat>, script: seq<Step>): Outcome
    requires Calls(s, entry) ==> Allowed(s, script)
  {
    if Calls(s, entry) then Outcome(RunScript(s, script), [entry.value], false)
    else Outcome(s, [], entry.Some? && entry.value !in s.watchers)
  }

  predicate AllAllowed(s: State, batch: seq<Option<nat>>, scripts: seq<seq<Step>>)
    requires |scripts| == |batch|
    decreases |batch|
  {
    || batch == []
    || ((Calls(s, batch[0]) ==> Allowed(s, scripts[0])) && AllAllowed(RunEntry(s, batch[0], scripts[0]).state, batch[1..], scripts[1..]))
  }

  function RunBatch(s: State, batch: seq<Option<nat>>, scripts: seq<seq<Step>>): Outcome
    requires |scripts| == |batch| && AllAllowed(s, batch, scripts)
    decreases |batch|, 0
  {
    if batch == [] then Outcome(s, [], false) else RunEntry(s, batch[0], scripts[0]).Then(batch[1..], scripts[1..])
  }

  /** The entries of the batch that have a callback, in order. */
  function Expected(s: State, batch: seq<Option<nat>>): seq<nat>
  {
    if batch == [] then []
    else
      var rest := Expected(s, batch[1..]);
      if Calls(s, batch[0]) then [batch[0].value] + rest else rest
  }

  /** Every entry names a live watcher, and no two the same one. */
  ghost predicate Live(s: State, batch: seq<Option<nat>>)
  {
    && (forall i :: 0 <= i < |batch| && batch[i].Some? ==> batch[i].value in s.watchers)
    && (forall i, j :: 0 <= i < j < |batch| && batch[i].Some? ==> batch[i] != batch[j])
  }

  lemma SampledIsLive(s: State, batch: seq<Option<nat>>)
    requires Ownership(s) && Sampled(s, batch)
    ensures Live(s, batch)
  {
    var fds: seq<int> :| SampledBy(s, batch, fds);
    forall i | 0 <= i < |batch| && batch[i].Some? ensures Owns(s, fds[i], batch[i].value) {
      assert Owns(s, fds[i], s.kernel[fds[i]]);
    }
  }

  /** The callback of entry j, if it runs, destroys the watcher of the later entry k. */
  predicate DestroysLater(s: State, batch: seq<Option<nat>>, scripts: seq<seq<Step>>, j: nat, k: nat)
    requires |scripts| == |batch|
  {
    j < k < |batch| && Calls(s, batch[j]) && batch[k].Some? && DestroyStep(batch[k].value) in scripts[j]
  }

  /** A step keeps every watcher but the one it destroys, and its callback. */
  lemma StepKeepsWatcher(s: State, step: Step, v: nat)
    requires Inv(s) && Enabled(s, step) && v in s.watchers && !(step.DestroyStep? && step.w == v)
    ensures v in Next(s, step).watchers && Next(s, step).watchers[v].hasCallback == s.watchers[v].hasCallback
  {
    hide Inv, Create, Stop, Destroy, Evict, Register;
    match step
    case OpenStep(_) =>
    case CloseStep(_) =>
    case CreateStep(fd, hasCallback, structMem, luck, listMem) =>
      CreateEffect(s, fd, hasCallback, structMem, luck, listMem);
      NewbornKeepsInv(s, fd, hasCallback);
    case StartStep(w, luck) =>
      if !s.watchers[w].active {
        StartEffect(s, w, luck);
      }
    case StopStep(w) => StopEffect(s, w);
    case UpdateStep(w) => UpdateEffect(s, w);
    case DestroyStep(w) => DestroyEffect(s, w);
  }

  lemma {:induction false} ScriptKeepsWatcher(s: State, script: seq<Step>, v: nat)
    requires Inv(s) && Allowed(s, script) && DestroyStep(v) !in script && v in s.watchers
    ensures v in RunScript(s, script).watchers && RunScript(s, script).watchers[v].hasCallback == s.watchers[v].hasCallback
    decreases |script|
  {
    hide Next, Enabled, Inv;
    if script != [] {
      assert script[0] in script && forall x <- script[1..] :: x in script;
      StepKeepsWatcher(s, script[0], v);
      NextKeepsInv(s, script[0]);
      ScriptKeepsWatcher(Next(s, script[0]), script[1..], v);
    }
  }

  /** The watcher has been freed. */
  predicate Gone(s: State, v: nat) { v !in s.watchers && v < s.nextBlock }

  /** A freed watcher does not come back, and destroying frees. */
  lemma StepKeepsGone(s: State, step: Step, v: nat)
    requires Inv(s) && Enabled(s, step)
    requires Gone(s, v) || (step == DestroyStep(v) && v in s.watchers)
    ensures Gone(Next(s, step), v)
  {
    hide Inv, Create, Start, Stop, Destroy, Evict, Update;
    match step
    case OpenStep(_) =>
    case CloseStep(_) =>
    case CreateStep(fd, hasCallback, structMem, luck, listMem) => CreateEffect(s, fd, hasCallback, structMem, luck, listMem);
    case StartStep(w, luck) =>
      if s.watchers[w].active {
        ActiveStart(s, w, luck);
      } else {
        StartEffect(s, w, luck);
      }
    case StopStep(w) => StopKeepsCounter(s, w);
    case UpdateStep(w) => UpdateEffect(s, w);
    case DestroyStep(w) =>
      DestroyEffect(s, w);
      WatcherBelowNext(s, w);
  }

  lemma StopKeepsCounter(s: State, w: nat)
    requires Inv(s) && w in s.watchers
    ensures Stop(s, w).0.nextBlock == s.nextBlock && Stop(s, w).0.watchers.Keys == s.watchers.Keys
  {
    StopFrame(s, w);
  }

  lemma WatcherBelowNext(s: State, w: nat)
    requires Inv(s) && w in s.watchers
    ensures w < s.nextBlock
  {
    assert w in s.heap;
  }

  lemma {:induction false} ScriptKeepsGone(s: State, script: seq<Step>, v: nat)
    requires Inv(s) && Allowed(s, script) && (Gone(s, v) || (v in s.watchers && DestroyStep(v) in script))
    ensures Gone(RunScript(s, script), v)
    decreases |script|
  {
    hide Next, Enabled, Inv, Gone;
    if script != [] {
      NextKeepsInv(s, script[0]);
      if Gone(s, v) || script[0] == DestroyStep(v) {
        StepKeepsGone(s, script[0], v);
      } else {
        StepKeepsWatcher(s, script[0], v);
      }
      ScriptKeepsGone(Next(s, script[0]), script[1..], v);
    }
  }

  lemma {:induction false} ScriptKeepsInv(s: State, script: seq<Step>)
    requires Inv(s) && Allowed(s, script)
    ensures Inv(RunScript(s, script))
    decreases |script|
  {
    if script != [] {
      NextKeepsInv(s, script[0]);
      ScriptKeepsInv(Next(s, script[0]), script[1..]);
    }
  }

  lemma {:induction false} ExpectedAfter(s: State, t: State, batch: seq<Option<nat>>)
    requires forall i :: 0 <= i < |batch| && batch[i].Some? ==>
               && batch[i].value in s.watchers && batch[i].value in t.watchers
               && t.watchers[batch[i].value].hasCallback == s.watchers[batch[i].value].hasCallback
    ensures Expected(t, batch) == Expected(s, batch)
  {
    if batch != [] {
      ExpectedAfter(s, t, batch[1..]);
    }
  }

  /** A batch that holds a freed watcher goes through it, whatever the callbacks before it do. */
  lemma {:induction false} GoneIsTouched(s: State, batch: seq<Option<nat>>, scripts: seq<seq<Step>>, k: nat)
    requires Inv(s) && |scripts| == |batch| && AllAllowed(s, batch, scripts)
    requires k < |batch| && batch[k].Some? && Gone(s, batch[k].value)
    ensures RunBatch(s, batch, scripts).touchedDead && Inv(RunBatch(s, batch, scripts).state)
    decreases |batch|
  {
    var o := RunEntry(s, batch[0], scripts[0]);
    EntryKeepsInv(s, batch[0], scripts[0]);
    if k > 0 {
      if Calls(s, batch[0]) {
        ScriptKeepsGone(s, scripts[0], batch[k].value);
      }
      GoneIsTouched(o.state, batch[1..], scripts[1..], k - 1);
    } else {
      BatchKeepsInv(o.state, batch[1..], scripts[1..]);
    }
  }

  lemma EntryKeepsInv(s: State, entry: Option<nat>, script: seq<Step>)
    requires Inv(s) && (Calls(s, entry) ==> Allowed(s, script))
    ensures Inv(RunEntry(s, entry, script).state)
  {
    hide Inv;
    if Calls(s, entry) {
      ScriptKeepsInv(s, script);
    }
  }

  lemma {:induction false} BatchKeepsInv(s: State, batch: seq<Option<nat>>, scripts: seq<seq<Step>>)
    requires Inv(s) && |scripts| == |batch| && AllAllowed(s, batch, scripts)
    ensures Inv(RunBatch(s, batch, scripts).state)
    decreases |batch|
  {
    hide Inv;
    if batch != [] {
      EntryKeepsInv(s, batch[0], scripts[0]);
      BatchKeepsInv(RunEntry(s, batch[0], scripts[0]).state, batch[1..], scripts[1..]);
    }
  }

  /** The two states agree on the watchers of the batch. */
  ghost predicate Agree(s: State, t: State, batch: seq<Option<nat>>)
  {
    forall i :: 0 <= i < |batch| && batch[i].Some? ==>
      && batch[i].value in s.watchers && batch[i].value in t.watchers
      && t.watchers[batch[i].value].hasCallback == s.watchers[batch[i].value].hasCallback
  }

  lemma EntryAgrees(s: State, batch: seq<Option<nat>>, scripts: seq<seq<Step>>)
    requires Inv(s) && Live(s, batch) && |scripts| == |batch| && AllAllowed(s, batch, scripts) && batch != []
    requires forall k :: !DestroysLater(s, batch, scripts, 0, k)
    ensures Agree(s, RunEntry(s, batch[0], scripts[0]).state, batch[1..])
  {
    hide Inv;
    if Calls(s, batch[0]) {
      var t := RunScript(s, scripts[0]);
      forall i | 0 <= i < |batch[1..]| && batch[1..][i].Some?
        ensures batch[1..][i].value in t.watchers && t.watchers[batch[1..][i].value].hasCallback == s.watchers[batch[1..][i].value].hasCallback
      {
        assert batch[1..][i] == batch[i + 1] && !DestroysLater(s, batch, scripts, 0, i + 1);
        ScriptKeepsWatcher(s, scripts[0], batch[i + 1].value);
      }
    }
  }

  /** A batch of live entries is run exactly like this: the loop goes through a freed watcher if and only
      if the callback of some entry destroys the watcher of a later one; and if not, each entry that has
      a callback runs it exactly once, in order. */
  lemma {:induction false} LiveBatchRuns(s: State, batch: seq<Option<nat>>, scripts: seq<seq<Step>>)
    requires Inv(s) && Live(s, batch) && |scripts| == |batch| && AllAllowed(s, batch, scripts)
    ensures var r := RunBatch(s, batch, scripts);
            && Inv(r.state)
            && (r.touchedDead <==> exists j, k :: DestroysLater(s, batch, scripts, j, k))
            && (!r.touchedDead ==> r.calls == Expected(s, batch))
    decreases |batch|
  {
    BatchKeepsInv(s, batch, scripts);
    hide Inv, DestroysLater, Allowed;
    if batch != [] {
      var o := RunEntry(s, batch[0], scripts[0]);
      EntryKeepsInv(s, batch[0], scripts[0]);
      if k :| DestroysLater(s, batch, scripts, 0, k) {
        LaterIsTouched(s, batch, scripts, k);
      } else {
        EntryAgrees(s, batch, scripts);
        ExpectedAfter(s, o.state, batch[1..]);
        LiveBatchRuns(o.state, batch[1..], scripts[1..]);
        RestDestroysLater(s, o.state, batch, scripts);
      }
    } else {
      NothingDestroysLater(s, batch, scripts);
    }
  }

  lemma NothingDestroysLater(s: State, batch: seq<Option<nat>>, scripts: seq<seq<Step>>)
    requires batch == [] && scripts == []
    ensures forall j, k :: !DestroysLater(s, batch, scripts, j, k)
  {
  }

  lemma LaterIsTouched(s: State, batch: seq<Option<nat>>, scripts: seq<seq<Step>>, k: nat)
    requires Inv(s) && Live(s, batch) && |scripts| == |batch| && AllAllowed(s, batch, scripts)
    requires DestroysLater(s, batch, scripts, 0, k)
    ensures RunBatch(s, batch, scripts).touchedDead
  {
    EntryKeepsInv(s, batch[0], scripts[0]);
    ScriptKeepsGone(s, scripts[0], batch[k].value);
    GoneIsTouched(RunEntry(s, batch[0], scripts[0]).state, batch[1..], scripts[1..], k - 1);
  }

  lemma RestDestroysLater(s: State, t: State, batch: seq<Option<nat>>, scripts: seq<seq<Step>>)
    requires |scripts| == |batch| && batch != [] && Agree(s, t, batch[1..])
    requires forall k :: !DestroysLater(s, batch, scripts, 0, k)
    ensures (exists j, k :: DestroysLater(t, batch[1..], scripts[1..], j, k)) <==> exists j, k :: DestroysLater(s, batch, scripts, j, k)
  {
    forall j: nat, k: nat ensures DestroysLater(t, batch[1..], scripts[1..], j, k) <==> DestroysLater(s, batch, scripts, j + 1, k + 1) {
      if j < k < |batch[1..]| {
        assert batch[1..][j] == batch[j + 1] && batch[1..][k] == batch[k + 1] && scripts[1..][j] == scripts[j + 1];
      }
    }
    if j: nat, k: nat :| DestroysLater(s, batch, scripts, j, k) {
      assert j != 0;
      assert DestroysLater(t, batch[1..], scripts[1..], j - 1, k - 1);
    }
  }

  /** The batch from position k on: its first entry, then the rest. */
  lemma BatchStep(s: State, calls: seq<nat>, batch: seq<Option<nat>>, scripts: seq<seq<Step>>, k: nat)
    requires |scripts| == |batch| && k < |batch| && AllAllowed(s, batch[k..], scripts[k..])
    requires !RunBatch(s, batch[k..], scripts[k..]).touchedDead
    ensures Calls(s, batch[k]) ==> Allowed(s, scripts[k])
    ensures batch[k].Some? ==> batch[k].value in s.watchers
    ensures var o := RunEntry(s, batch[k], scripts[k]);
            && AllAllowed(o.state, batch[k + 1..], scripts[k + 1..])
            && Outcome(s, calls, false).Then(batch[k..], scripts[k..])
               == Outcome(o.state, calls + o.calls, false).Then(batch[k + 1..], scripts[k + 1..])
  {
    assert batch[k..][1..] == batch[k + 1..] && scripts[k..][1..] == scripts[k + 1..];
  }

  /** Batch liveness.  In any reachable state, let epoll_wait return a batch.  The loop goes through a freed
      watcher exactly when the callback of some entry destroys the watcher of a later one; else each
      returned entry that has a callback runs it exactly once, in the batch's order, whatever the
      callbacks open, close, register, start, stop and destroy on the way. */
  lemma BatchRunsEachEntryOnce(run: seq<State>, steps: seq<Step>, i: nat, batch: seq<Option<nat>>, scripts: seq<seq<Step>>)
    requires IsRun(run, steps) && i < |run| && Sampled(run[i], batch)
    requires |scripts| == |batch| && AllAllowed(run[i], batch, scripts)
    ensures var r := RunBatch(run[i], batch, scripts);
            && Inv(r.state)
            && (r.touchedDead <==> exists j, k :: DestroysLater(run[i], batch, scripts, j, k))
            && (!r.touchedDead ==> r.calls == Expected(run[i], batch))
  {
    RunKeepsInv(run, steps, i);
    SampledIsLive(run[i], batch);
    LiveBatchRuns(run[i], batch, scripts);
  }
}
