/** Stopping and waking the loop (loop.c with the eventfd of epoll.c).

    One loop thread runs pd_loop_run; any number of other calls, each with its own id, run pd_loop_stop
    or pd_loop_async_send.  Such a call first stores the flag or the data under the mutex, and later
    writes the eventfd.  The loop reads the flag under the mutex and waits outside it, so every store
    and write can fall between any two of its steps. */
module Wake {
  import opened Options

  /** The largest value of an eventfd counter. */
  const MAX: nat := 0xFFFF_FFFF_FFFF_FFFE

  datatype Kind = Stop | Send(value: nat)

  /** A call that has stored; `written` says whether it has also written the eventfd. */
  datatype Op = Op(kind: Kind, written: bool)

  /** Where the loop thread is: outside pd_loop_run; at the while condition, which is read without the
      mutex and may miss a store unless the thread has meanwhile `synced`; at the check under the mutex;
      in epoll_wait; or in a batch with `left` entries to go, the eventfd among them or not. */
  datatype Place = Outside | Test(synced: bool) | Check | Waiting | Batch(left: nat, eventfd: bool)

  /** History: `since` holds the stops stored since the flag was last cleared, `pending` the calls whose
      write no read of the eventfd has consumed yet, and `waits` counts completed waits. */
  datatype State = State(place: Place, flag: bool, counter: nat, data: Option<nat>, ops: map<nat, Op>,
                         since: set<nat>, pending: set<nat>, waits: nat)

  const START := State(Outside, false, 0, None, map[], {}, {}, 0)

  datatype Step =
    | Store(id: nat, kind: Kind)
    | Write(id: nat)
    | Enter
    | TestFlag(sees: bool, watchers: bool)
    | CheckFlag
    | Return(left: nat, eventfd: bool)
    | Fail
    | Process(eventfd: bool, readOk: bool)
    | EndBatch

  predicate OfLoop(step: Step) { !step.Store? && !step.Write? }

  /** The loop's steps are taken in turn.  epoll_wait reports the eventfd only when its counter is
      positive, and may return for other reasons, with other entries or none. */
  predicate Enabled(maxEvents: nat, s: State, step: Step)
  {
    match step
    case Store(id, _) => id !in s.ops
    case Write(id) => id in s.ops && !s.ops[id].written
    case Enter => s.place.Outside?
    case TestFlag(sees, _) => s.place.Test? && (sees ==> s.flag) && (s.flag && s.place.synced ==> sees)
    case CheckFlag => s.place.Check?
    case Return(left, eventfd) => s.place.Waiting? && left <= maxEvents && (eventfd ==> left > 0 && s.counter > 0)
    case Fail => s.place.Waiting?
    case Process(eventfd, _) =>
      s.place.Batch? && s.place.left > 0 && (eventfd ==> s.place.eventfd) && (s.place.left == 1 && s.place.eventfd ==> eventfd)
    case EndBatch => s.place.Batch? && s.place.left == 0
  }

  function Next(maxEvents: nat, s: State, step: Step): State
    requires Enabled(maxEvents, s, step)
  {
    match step
    case Store(id, Stop) => s.(flag := true, ops := s.ops[id := Op(Stop, false)], since := s.since + {id})
    case Store(id, Send(v)) => s.(data := Some(v), ops := s.ops[id := Op(Send(v), false)])
    case Write(id) =>
      s.(counter := if s.counter + 1 <= MAX then s.counter + 1 else s.counter,
         ops := s.ops[id := s.ops[id].(written := true)], pending := s.pending + {id})
    case Enter => s.(place := Test(false), flag := false, since := {})
    case TestFlag(sees, watchers) => s.(place := if sees || !watchers then Outside else Check)
    case CheckFlag => s.(place := if s.flag then Test(true) else Waiting)
    case Return(left, eventfd) => s.(place := Batch(left, eventfd), waits := s.waits + 1)
    case Fail => s.(place := Outside)
    case Process(eventfd, readOk) =>
      var t := s.(place := Batch(s.place.left - 1, s.place.eventfd && !eventfd));
      if eventfd && readOk then t.(counter := 0, pending := {}) else t
    case EndBatch => s.(place := Test(false))
  }

  ghost predicate IsRun(maxEvents: nat, run: seq<State>, steps: seq<Step>)
  {
    && |run| == |steps| + 1 && run[0] == START
    && forall i :: 0 <= i < |steps| ==> Enabled(maxEvents, run[i], steps[i]) && run[i + 1] == Next(maxEvents, run[i], steps[i])
  }

  /* ---------------- the invariant ---------------- */

  /** A write that is not yet consumed keeps the counter positive, even when it found the counter
      saturated; and while the loop waits, no read consumes a write of a stop that the flag holds. */
  ghost predicate Inv(maxEvents: nat, s: State)
  {
    && s.counter <= MAX
    && (s.place.Batch? ==> s.place.left <= maxEvents)
    && (s.pending != {} ==> s.counter > 0)
    && (s.flag <==> s.since != {})
    && (forall id <- s.since :: id in s.ops)
    && (s.place.Waiting? ==> forall id <- s.since :: s.ops[id].written ==> id in s.pending)
  }

  lemma NextKeepsInv(maxEvents: nat, s: State, step: Step)
    requires Inv(maxEvents, s) && Enabled(maxEvents, s, step)
    ensures Inv(maxEvents, Next(maxEvents, s, step))
  {
    if step.Process? && step.eventfd && step.readOk {
      assert Next(maxEvents, s, step).pending == {};
    }
  }

  lemma {:induction false} RunKeepsInv(maxEvents: nat, run: seq<State>, steps: seq<Step>, n: nat)
    requires IsRun(maxEvents, run, steps) && n < |run|
    ensures Inv(maxEvents, run[n])
  {
    if n > 0 {
      RunKeepsInv(maxEvents, run, steps, n - 1);
      NextKeepsInv(maxEvents, run[n - 1], steps[n - 1]);
    }
  }

  /* ---------------- no lost stop ---------------- */

  /** No entry to pd_loop_run from state i to state n. */
  predicate NoEntry(steps: seq<Step>, i: nat, n: nat)
    requires i <= n <= |steps|
  {
    forall k :: i <= k < n ==> !steps[k].Enter?
  }

  lemma OpGrows(maxEvents: nat, s: State, step: Step, id: nat)
    requires Enabled(maxEvents, s, step) && id in s.ops
    ensures var t := Next(maxEvents, s, step);
            && id in t.ops && t.ops[id].kind == s.ops[id].kind && (s.ops[id].written ==> t.ops[id].written)
            && (!step.Enter? && id in s.since ==> id in t.since)
  {
  }

  /** A call keeps its kind, and a write once made stays made. */
  lemma {:induction false} OpsGrow(maxEvents: nat, run: seq<State>, steps: seq<Step>, i: nat, n: nat, id: nat)
    requires IsRun(maxEvents, run, steps) && i <= n < |run| && id in run[i].ops
    ensures id in run[n].ops && run[n].ops[id].kind == run[i].ops[id].kind && (run[i].ops[id].written ==> run[n].ops[id].written)
    ensures NoEntry(steps, i, n) && id in run[i].since ==> id in run[n].since
    decreases n
  {
    hide Next, Enabled;
    if i < n {
      OpsGrow(maxEvents, run, steps, i, n - 1, id);
      OpGrows(maxEvents, run[n - 1], steps[n - 1], id);
    }
  }

  /** No lost stop.  Let a stop be stored at step i and written by state n, with no entry to
      pd_loop_run in between.  If the loop is then in epoll_wait, the eventfd counter is positive, so
      the wait returns; this holds for any number of other stops and sends, saturation included. */
  lemma NoLostStop(maxEvents: nat, run: seq<State>, steps: seq<Step>, i: nat, n: nat)
    requires IsRun(maxEvents, run, steps) && i < n < |run| && steps[i].Store? && steps[i].kind.Stop?
    requires NoEntry(steps, i, n)
    ensures steps[i].id in run[n].ops
    ensures run[n].ops[steps[i].id].written && run[n].place.Waiting? ==> run[n].counter > 0
  {
    assert steps[i].id in run[i + 1].since;
    OpsGrow(maxEvents, run, steps, i + 1, n, steps[i].id);
    RunKeepsInv(maxEvents, run, steps, n);
  }

  /** Waits that may still complete once the flag is set. */
  function WaitsToCome(p: Place): nat { if p.Waiting? then 1 else 0 }

  /** Steps that the loop may still take once the flag is set. */
  function StepsToCome(maxEvents: nat, p: Place): nat
  {
    match p
    case Outside => 0
    case Test(synced) => if synced then 1 else 3
    case Check => 2
    case Batch(left, _) => 4 + left
    case Waiting => 5 + maxEvents
  }

  function LoopSteps(steps: seq<Step>, i: nat, n: nat): nat
    requires i <= n <= |steps|
  {
    if i == n then 0 else LoopSteps(steps, i, n - 1) + if OfLoop(steps[n - 1]) then 1 else 0
  }

  lemma FlagStays(maxEvents: nat, s: State, step: Step)
    requires Enabled(maxEvents, s, step) && s.flag && !step.Enter?
    ensures var t := Next(maxEvents, s, step);
            && t.flag && t.waits + WaitsToCome(t.place) <= s.waits + WaitsToCome(s.place)
            && StepsToCome(maxEvents, t.place) + (if OfLoop(step) then 1 else 0) <= StepsToCome(maxEvents, s.place)
  {
  }

  /** A set flag ends the run.  From any state in which the flag is set, until pd_loop_run is entered
      again, at most one wait completes, the loop thread takes at most maxEvents + 5 steps, and when it
      has none left to take it has returned. */
  lemma {:induction false} StopEndsRun(maxEvents: nat, run: seq<State>, steps: seq<Step>, i: nat, n: nat)
    requires IsRun(maxEvents, run, steps) && i <= n < |run| && run[i].flag && NoEntry(steps, i, n)
    ensures run[n].flag
    ensures run[n].waits + WaitsToCome(run[n].place) <= run[i].waits + WaitsToCome(run[i].place)
    ensures LoopSteps(steps, i, n) + StepsToCome(maxEvents, run[n].place) <= StepsToCome(maxEvents, run[i].place)
    ensures run[n].waits <= run[i].waits + 1 && LoopSteps(steps, i, n) <= maxEvents + 5
    decreases n
  {
    RunKeepsInv(maxEvents, run, steps, i);
    if i < n {
      StopEndsRun(maxEvents, run, steps, i, n - 1);
      FlagStays(maxEvents, run[n - 1], steps[n - 1]);
    }
  }

  /* ---------------- sends ---------------- */

  /** Step k reads the eventfd. */
  predicate Reads(steps: seq<Step>, k: nat)
    requires k < |steps|
  {
    steps[k].Process? && steps[k].eventfd && steps[k].readOk
  }

  /** No lost wake.  Once a call has written the eventfd, the counter is positive until the loop reads
      it, however many calls write meanwhile. */
  lemma {:induction false} NoLostWake(maxEvents: nat, run: seq<State>, steps: seq<Step>, i: nat, n: nat)
    requires IsRun(maxEvents, run, steps) && i < n < |run| && steps[i].Write?
    requires forall k :: i < k < n ==> !Reads(steps, k)
    ensures steps[i].id in run[n].pending && run[n].counter > 0
    decreases n
  {
    RunKeepsInv(maxEvents, run, steps, n);
    if n > i + 1 {
      NoLostWake(maxEvents, run, steps, i, n - 1);
      assert !Reads(steps, n - 1);
    }
  }

  /** Step i stores a value. */
  predicate Sends(steps: seq<Step>, i: nat)
    requires i < |steps|
  {
    steps[i].Store? && steps[i].kind.Send?
  }

  /** Of the first n steps, step l is the last that stores a value. */
  ghost predicate LatestSend(steps: seq<Step>, l: nat, n: nat)
    requires n <= |steps|
  {
    l < n && Sends(steps, l) && forall j :: l < j < n ==> !Sends(steps, j)
  }

  /** The async data is the value of the latest store. */
  lemma {:induction false} DataIsLatest(maxEvents: nat, run: seq<State>, steps: seq<Step>, i: nat, n: nat) returns (l: nat)
    requires IsRun(maxEvents, run, steps) && i < n < |run| && Sends(steps, i)
    ensures i <= l && LatestSend(steps, l, n) && run[n].data == Some(steps[l].kind.value)
    decreases n
  {
    if Sends(steps, n - 1) {
      l := n - 1;
    } else {
      l := DataIsLatest(maxEvents, run, steps, i, n - 1);
      assert run[n].data == run[n - 1].data;
    }
  }

  /** A call that is under way has stored. */
  lemma {:induction false} OpHasStored(maxEvents: nat, run: seq<State>, steps: seq<Step>, n: nat, id: nat)
    requires IsRun(maxEvents, run, steps) && n < |run| && id in run[n].ops
    ensures exists i :: 0 <= i < n && steps[i] == Store(id, run[n].ops[id].kind)
  {
    if id in run[n - 1].ops {
      OpHasStored(maxEvents, run, steps, n - 1, id);
      OpGrows(maxEvents, run[n - 1], steps[n - 1], id);
    } else {
      assert steps[n - 1] == Store(id, run[n].ops[id].kind);
    }
  }

  /** A wake that is not consumed comes from a write, of a call that had stored before. */
  lemma {:induction false} PendingHasWritten(maxEvents: nat, run: seq<State>, steps: seq<Step>, n: nat, id: nat)
    requires IsRun(maxEvents, run, steps) && n < |run| && id in run[n].pending
    ensures id in run[n].ops
    ensures exists i, k :: 0 <= i < k < n && steps[i] == Store(id, run[n].ops[id].kind) && steps[k] == Write(id)
  {
    if id in run[n - 1].pending {
      PendingHasWritten(maxEvents, run, steps, n - 1, id);
      OpGrows(maxEvents, run[n - 1], steps[n - 1], id);
    } else {
      assert steps[n - 1] == Write(id);
      OpHasStored(maxEvents, run, steps, n - 1, id);
    }
  }

  /** Data freshness.  Let the loop's read of the eventfd at step m consume the wake of a send.  Then that
      send stored at some step i, and wrote after it, before step m; its wake is used up; and whenever
      pd_loop_get_async_data is called after the read, it returns the value of one send, the latest to
      store, and that store is no older than step i.  This holds for every send whose wake the read
      consumes, so the value is no older than the latest of them. */
  lemma AsyncDataIsFresh(maxEvents: nat, run: seq<State>, steps: seq<Step>, m: nat, n: nat, id: nat)
    requires IsRun(maxEvents, run, steps) && m < n < |run| && Reads(steps, m)
    requires id in run[m].pending && id in run[m].ops && run[m].ops[id].kind.Send?
    ensures id !in run[m + 1].pending
    ensures exists i, k, l :: 0 <= i < k < m && steps[i] == Store(id, run[m].ops[id].kind) && steps[k] == Write(id)
              && i <= l && LatestSend(steps, l, n) && run[n].data == Some(steps[l].kind.value)
  {
    assert run[m + 1] == Next(maxEvents, run[m], steps[m]) && run[m + 1].pending == {};
    hide Next, Enabled;
    PendingHasWritten(maxEvents, run, steps, m, id);
    var i, k :| 0 <= i < k < m && steps[i] == Store(id, run[m].ops[id].kind) && steps[k] == Write(id);
    var l := DataIsLatest(maxEvents, run, steps, i, n);
  }

  /* ---------------- a stop before the run ---------------- */

  lemma Extend(maxEvents: nat, run: seq<State>, steps: seq<Step>, step: Step)
    requires IsRun(maxEvents, run, steps) && Enabled(maxEvents, run[|steps|], step)
    ensures IsRun(maxEvents, run + [Next(maxEvents, run[|steps|], step)], steps + [step])
  {
  }

  /** A sequence of steps from START as a run, when each is allowed. */
  ghost function RunOf(maxEvents: nat, steps: seq<Step>): (run: seq<State>)
    ensures run != [] ==> |run| == |steps| + 1
  {
    if steps == [] then [START]
    else
      var n := |steps| - 1;
      var run := RunOf(maxEvents, steps[..n]);
      if run != [] && Enabled(maxEvents, run[n], steps[n]) then run + [Next(maxEvents, run[n], steps[n])] else []
  }

  lemma Then(maxEvents: nat, steps: seq<Step>, s: State, step: Step)
    requires Reaches(maxEvents, steps, s) && Enabled(maxEvents, s, step)
    ensures Reaches(maxEvents, steps + [step], Next(maxEvents, s, step))
  {
    var run := RunOf(maxEvents, steps);
    assert (steps + [step])[..|steps|] == steps;
    Extend(maxEvents, run, steps, step);
  }

  ghost predicate Reaches(maxEvents: nat, steps: seq<Step>, s: State)
  {
    var run := RunOf(maxEvents, steps);
    run != [] && IsRun(maxEvents, run, steps) && run[|steps|] == s
  }

  /** A stop that was stored before pd_loop_run clears the flag is erased: here the loop waits again with
      the counter at zero although the stop, the only one, has finished. */
  lemma EarlyStopIsErased(maxEvents: nat) returns (steps: seq<Step>, s: State)
    requires maxEvents > 0
    ensures Reaches(maxEvents, steps, s) && |steps| > 1 && steps[0] == Store(0, Stop) && steps[1] == Write(0)
    ensures 0 in s.ops && s.ops[0].written && s.place.Waiting? && s.counter == 0 && !s.flag
  {
    s, steps := Next(maxEvents, START, Store(0, Stop)), [Store(0, Stop)];
    Then(maxEvents, [], START, Store(0, Stop));
    assert [] + steps == steps;
    Then(maxEvents, steps, s, Write(0));
    s, steps := Next(maxEvents, s, Write(0)), steps + [Write(0)];
    for k := 0 to 8
      invariant Reaches(maxEvents, steps, s) && |steps| == k + 2 && steps[0] == Store(0, Stop) && steps[1] == Write(0)
      invariant s == Erased(k)
    {
      ErasedStep(maxEvents, k);
      Then(maxEvents, steps, s, Erasing(k));
      s, steps := Erased(k + 1), steps + [Erasing(k)];
    }
  }

  /** The loop's steps in that run, and the states from the finished stop on. */
  function Erasing(k: nat): Step
  {
    match k
    case 0 => Enter
    case 1 => TestFlag(false, true)
    case 2 => CheckFlag
    case 3 => Return(1, true)
    case 4 => Process(true, true)
    case 5 => EndBatch
    case 6 => TestFlag(false, true)
    case _ => CheckFlag
  }

  function Erased(k: nat): State
  {
    var place := match k
      case 0 => Outside
      case 1 => Test(false)
      case 2 => Check
      case 3 => Waiting
      case 4 => Batch(1, true)
      case 5 => Batch(0, false)
      case 6 => Test(false)
      case 7 => Check
      case _ => Waiting;
    State(place, k == 0, if k < 5 then 1 else 0, None, map[0 := Op(Stop, true)],
          if k == 0 then {0} else {}, if k < 5 then {0} else {}, if k < 4 then 0 else 1)
  }

  lemma ErasedStep(maxEvents: nat, k: nat)
    requires maxEvents > 0 && k < 8
    ensures Enabled(maxEvents, Erased(k), Erasing(k)) && Next(maxEvents, Erased(k), Erasing(k)) == Erased(k + 1)
  {
  }

  /* ---------------- when pd_loop_run returns ---------------- */

  /** pd_loop_run returns exactly at a while condition that sees the flag or finds no watcher left, or when
      the wait fails.  From a condition that does neither it goes on to the check, from the check to the
      wait or back to the condition, and from the wait through the whole batch to the condition. */
  lemma ReturnsExactlyWhen(maxEvents: nat, run: seq<State>, steps: seq<Step>, n: nat)
    requires IsRun(maxEvents, run, steps) && n < |steps| && !run[n].place.Outside?
    ensures var step := steps[n];
            && (run[n + 1].place.Outside? <==> step.Fail? || (step.TestFlag? && (step.sees || !step.watchers)))
            && (step.TestFlag? && !step.sees && step.watchers ==> run[n + 1].place.Check?)
            && (step.CheckFlag? ==> run[n + 1].place == if run[n].flag then Test(true) else Waiting)
            && (step.Return? ==> run[n + 1].place == Batch(step.left, step.eventfd) && run[n + 1].waits == run[n].waits + 1)
            && (step.Process? ==> run[n + 1].place == Batch(run[n].place.left - 1, run[n].place.eventfd && !step.eventfd))
            && (step.EndBatch? ==> run[n + 1].place == Test(false))
            && (step.Store? || step.Write? ==> run[n + 1].place == run[n].place)
            && (run[n].flag && run[n].place == Test(true) && OfLoop(step) ==> run[n + 1].place.Outside?)
  {
  }

  /** The writes of the first n steps that no read of the eventfd has consumed. */
  function Unread(steps: seq<Step>, n: nat): nat
    requires n <= |steps|
  {
    if n == 0 then 0
    else if Reads(steps, n - 1) then 0
    else Unread(steps, n - 1) + if steps[n - 1].Write? then 1 else 0
  }

  /** The eventfd counts the writes since it was last read, up to its maximum. */
  lemma {:induction false} CounterCountsWrites(maxEvents: nat, run: seq<State>, steps: seq<Step>, n: nat)
    requires IsRun(maxEvents, run, steps) && n < |run|
    ensures run[n].counter == if Unread(steps, n) <= MAX then Unread(steps, n) else MAX
  {
    hide Next, Enabled;
    if n > 0 {
      CounterCountsWrites(maxEvents, run, steps, n - 1);
      CounterStep(maxEvents, run[n - 1], steps[n - 1]);
    }
  }

  lemma CounterStep(maxEvents: nat, s: State, step: Step)
    requires Enabled(maxEvents, s, step)
    ensures Next(maxEvents, s, step).counter
            == if step.Process? && step.eventfd && step.readOk then 0
               else if step.Write? && s.counter < MAX then s.counter + 1
               else s.counter
  {
  }

  /** At the check under the mutex the loop goes on to wait exactly when no stop has been stored since
      pd_loop_run cleared the flag. */
  lemma CheckHonoursStopsSinceEntry(maxEvents: nat, run: seq<State>, steps: seq<Step>, n: nat)
    requires IsRun(maxEvents, run, steps) && n < |steps| && steps[n].CheckFlag?
    ensures run[n + 1].place.Waiting? <==>
            exists e :: 0 <= e < n && steps[e].Enter? && NoEntry(steps, e + 1, n)
              && forall k :: e < k < n ==> !(steps[k].Store? && steps[k].kind.Stop?)
  {
    InsideSinceEntry(maxEvents, run, steps, n);
    FlagMeaning(maxEvents, run, steps, n);
  }

  /** The loop is inside pd_loop_run only after an entry. */
  lemma {:induction false} InsideSinceEntry(maxEvents: nat, run: seq<State>, steps: seq<Step>, n: nat)
    requires IsRun(maxEvents, run, steps) && n < |run| && !run[n].place.Outside?
    ensures exists e :: 0 <= e < n && steps[e].Enter? && NoEntry(steps, e + 1, n)
  {
    if steps[n - 1].Enter? {
      assert NoEntry(steps, n, n);
    } else {
      InsideSinceEntry(maxEvents, run, steps, n - 1);
      var e :| 0 <= e < n - 1 && steps[e].Enter? && NoEntry(steps, e + 1, n - 1);
      assert NoEntry(steps, e + 1, n);
    }
  }

  /** The flag is set exactly when a stop was stored with no entry since. */
  lemma {:induction false} FlagMeaning(maxEvents: nat, run: seq<State>, steps: seq<Step>, n: nat)
    requires IsRun(maxEvents, run, steps) && n < |run|
    ensures run[n].flag <==> exists i :: 0 <= i < n && steps[i].Store? && steps[i].kind.Stop? && NoEntry(steps, i, n)
  {
    if n > 0 {
      FlagMeaning(maxEvents, run, steps, n - 1);
      var step := steps[n - 1];
      if step.Enter? {
        assert forall i :: 0 <= i < n ==> !NoEntry(steps, i, n);
      } else {
        assert forall i :: 0 <= i <= n - 1 ==> (NoEntry(steps, i, n - 1) <==> NoEntry(steps, i, n));
        if step.Store? && step.kind.Stop? {
          assert NoEntry(steps, n - 1, n);
        }
      }
    }
  }
}
