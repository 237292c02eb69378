/** Runs from the freshly created loop in which the conditions of the epoll effects fail: what a second
    watcher on a registered number, an update after the number was recycled, or a callback that destroys
    the watcher of a later entry, then does. */
module EpollWitness {
  import opened Growable
  import opened Options
  import opened Epoll
  import B = EpollBatch

  const LUCKY := Luck(true, true, true)

  lemma Extended(run: seq<State>, steps: seq<Step>, step: Step, t: State) returns (run': seq<State>, steps': seq<Step>)
    requires IsRun(run, steps) && Enabled(run[|steps|], step) && t == Next(run[|steps|], step)
    ensures IsRun(run', steps') && run'[|steps'|] == t
  {
    hide Enabled, Next;
    run', steps' := run + [t], steps + [step];
  }

  /** Watcher 0 registered on number 3, the file being `file`. */
  function First(file: nat): Watcher { Watcher(3, true, true, Some(1), file) }

  const OPENED := START.(files := map[3 := 0], nextFile := 1)
  const REGISTERED := OPENED.(kernel := map[3 := 0], records := [Record(3, 0)], capacity := 8, watchers := map[0 := First(0)],
                              list := [0], heap := {0, 1}, nextBlock := 2)

  lemma RegisteredRun() returns (run: seq<State>, steps: seq<Step>)
    ensures IsRun(run, steps) && run[|steps|] == REGISTERED
  {
    run, steps := [START], [];
    assert Open(START, 3) == OPENED;
    run, steps := Extended(run, steps, OpenStep(3), OPENED);
    FirstIsCreated();
    run, steps := Extended(run, steps, CreateStep(3, true, true, LUCKY, true), REGISTERED);
  }

  lemma FirstIsCreated()
    ensures Create(OPENED, 3, true, true, LUCKY, true).0 == REGISTERED
  {
    var s := SetWatcher(OPENED.(heap := {0}, nextBlock := 1), 0, Watcher(3, true, true, None, 0));
    assert OPENED.heap + {OPENED.nextBlock} == {0};
    assert Evict(s.records, 3, 0) == [];
    var t := Register(s, 0, LUCKY).0;
    assert t.records == [Record(3, 0)];
    assert t.kernel == map[3 := 0] && t.watchers == map[0 := First(0)] && t.heap == {0, 1};
  }

  /** The kernel set holds a number whose watcher has been freed. */
  predicate Dangling(s: State, fd: int) { fd in s.kernel && s.kernel[fd] !in s.watchers }

  /** A second watcher is created on a registered number.  The creation fails, but it has evicted the
      owner's record; when the owner is destroyed, its kernel entry stays behind and names freed memory. */
  lemma SecondCreateRun() returns (run: seq<State>, steps: seq<Step>)
    ensures IsRun(run, steps) && 3 in run[|steps|].kernel
    ensures var (t, made) := Create(run[|steps|], 3, true, true, LUCKY, true);
            && made == None && !Inv(t) && 0 in t.watchers && Dangling(Destroy(t, 0), 3)
  {
    run, steps := RegisteredRun();
    RunKeepsInv(run, steps, |steps|);
    CreateEffect(REGISTERED, 3, true, true, LUCKY, true);
    var t := Create(REGISTERED, 3, true, true, LUCKY, true).0;
    assert FindStale([Record(3, 0)], 3, 2) == 0;
    assert Unborn(REGISTERED, t, 3, true);
    assert t.records == [];
    UnrecordedDangles(t, 0, 3);
  }

  /** A watcher that has lost its record is destroyed without a DEL. */
  lemma UnrecordedDangles(t: State, w: nat, fd: int)
    requires w in t.watchers && fd in t.kernel && t.kernel[fd] == w && FindWatcher(t.records, w) == |t.records|
    ensures Dangling(Destroy(t, w), fd)
  {
  }

  /* ---------------- starting on a number that another watcher owns by now ---------------- */

  const STOPPED := REGISTERED.(kernel := map[], records := [], watchers := map[0 := First(0).(active := false, data := None)],
                               heap := {0}, dels := [Del(3, 0, Some(0))])
  const TAKEN := STOPPED.(kernel := map[3 := 2], records := [Record(3, 2)], list := [0, 2], heap := {0, 2, 3}, nextBlock := 4,
                          watchers := map[0 := First(0).(active := false, data := None), 2 := Watcher(3, true, true, Some(3), 0)])

  lemma FirstIsStopped()
    ensures Stop(REGISTERED, 0).0 == STOPPED
  {
    var s := SetActive(REGISTERED, 0, false);
    var t := Unregister(s, 0).0;
    assert SwapRemove([Record(3, 0)], 0) == [];
    assert t.kernel == map[] && t.heap == {0} && t.watchers == STOPPED.watchers;
  }

  lemma SecondIsCreated()
    ensures Create(STOPPED, 3, true, true, LUCKY, true).0 == TAKEN
  {
    var s := SetWatcher(STOPPED.(heap := {0, 2}, nextBlock := 3), 2, Watcher(3, true, true, None, 0));
    assert STOPPED.heap + {STOPPED.nextBlock} == {0, 2};
    assert Evict(s.records, 3, 2) == [];
    var t := Register(s, 2, LUCKY).0;
    assert t.records == [Record(3, 2)];
    assert t.kernel == map[3 := 2] && t.heap == {0, 2, 3};
    assert t.watchers == TAKEN.watchers;
  }

  /** A stopped watcher is started again on a number that another watcher owns by now.  The start fails,
      but it has evicted the owner's record, with the same consequence. */
  lemma StartOnTakenRun() returns (run: seq<State>, steps: seq<Step>)
    ensures IsRun(run, steps) && 0 in run[|steps|].watchers && !run[|steps|].watchers[0].active && 3 in run[|steps|].kernel
    ensures var (t, code) := Start(run[|steps|], 0, LUCKY);
            && code == SystemError && !Inv(t) && 2 in t.watchers && Dangling(Destroy(t, 2), 3)
  {
    run, steps := RegisteredRun();
    FirstIsStopped();
    run, steps := Extended(run, steps, StopStep(0), STOPPED);
    SecondIsCreated();
    run, steps := Extended(run, steps, CreateStep(3, true, true, LUCKY, true), TAKEN);
    RunKeepsInv(run, steps, |steps|);
    StartOnTaken();
    hide Inv, Start, Create, IsRun;
  }

  lemma StartOnTaken()
    requires Inv(TAKEN)
    ensures var (t, code) := Start(TAKEN, 0, LUCKY);
            && code == SystemError && !Inv(t) && 2 in t.watchers && Dangling(Destroy(t, 2), 3)
  {
    StartEffect(TAKEN, 0, LUCKY);
    var t := Start(TAKEN, 0, LUCKY).0;
    assert FindStale([Record(3, 2)], 3, 0) == 0;
    assert Evict(TAKEN.records, 3, 0) == [];
    assert t.records == [];
    UnrecordedDangles(t, 2, 3);
  }

  /* ---------------- updating after the number was recycled ---------------- */

  const REOPENED := REGISTERED.(files := map[3 := 1], nextFile := 2, kernel := map[])
  const RECYCLED := REOPENED.(kernel := map[3 := 2], records := [Record(3, 2)], list := [0, 2], heap := {0, 1, 2, 3}, nextBlock := 4,
                              watchers := map[0 := First(0), 2 := Watcher(3, true, true, Some(3), 1)])

  lemma RecycledIsCreated()
    ensures Create(REOPENED, 3, true, true, LUCKY, true).0 == RECYCLED
  {
    var s := SetWatcher(REOPENED.(heap := {0, 1, 2}, nextBlock := 3), 2, Watcher(3, true, true, None, 0));
    assert REOPENED.heap + {REOPENED.nextBlock} == {0, 1, 2};
    assert FindStale([Record(3, 0)], 3, 2) == 0;
    assert Evict(s.records, 3, 2) == [];
    var t := Register(s, 2, LUCKY).0;
    assert t.records == [Record(3, 2)];
    assert t.kernel == map[3 := 2] && t.heap == {0, 1, 2, 3};
    assert t.watchers == RECYCLED.watchers;
  }

  /** The file is closed under an active watcher and its number opened again and registered by another
      one.  Updating the first watcher takes the entry over: the events of the new file go to it. */
  lemma UpdateAfterRecyclingRun() returns (run: seq<State>, steps: seq<Step>)
    ensures IsRun(run, steps) && run[|steps|].kernel == map[3 := 2]
    ensures 0 in run[|steps|].watchers
    ensures var (t, code) := Update(run[|steps|], 0);
            && code == Ok && t.kernel == map[3 := 0] && !Inv(t) && Owns(t, 3, 2)
  {
    run, steps := RegisteredRun();
    NumberIsRecycled();
    run, steps := Extended(run, steps, CloseStep(3), Close(REGISTERED, 3));
    run, steps := Extended(run, steps, OpenStep(3), REOPENED);
    RecycledIsCreated();
    run, steps := Extended(run, steps, CreateStep(3, true, true, LUCKY, true), RECYCLED);
    RunKeepsInv(run, steps, |steps|);
    UpdateOnRecycled();
    hide Inv, Create, IsRun;
  }

  lemma NumberIsRecycled()
    ensures 3 !in Close(REGISTERED, 3).files && Open(Close(REGISTERED, 3), 3) == REOPENED
  {
  }

  lemma UpdateOnRecycled()
    requires Inv(RECYCLED)
    ensures var (t, code) := Update(RECYCLED, 0);
            && code == Ok && t.kernel == map[3 := 0] && !Inv(t) && Owns(t, 3, 2)
  {
    UpdateEffect(RECYCLED, 0);
  }

  /* ---------------- destroying the watcher of a later entry ---------------- */

  const SECOND := Watcher(4, true, true, Some(3), 1)
  const TWO_OPEN := REGISTERED.(files := map[3 := 0, 4 := 1], nextFile := 2)
  const TWO := TWO_OPEN.(kernel := map[3 := 0, 4 := 2], records := [Record(3, 0), Record(4, 2)], list := [0, 2],
                         heap := {0, 1, 2, 3}, nextBlock := 4, watchers := map[0 := First(0), 2 := SECOND])

  lemma OtherIsCreated()
    ensures Create(TWO_OPEN, 4, true, true, LUCKY, true).0 == TWO
  {
    var s := SetWatcher(TWO_OPEN.(heap := {0, 1, 2}, nextBlock := 3), 2, Watcher(4, true, true, None, 0));
    assert TWO_OPEN.heap + {TWO_OPEN.nextBlock} == {0, 1, 2};
    assert FindStale([Record(3, 0)], 4, 2) == 1;
    assert Evict(s.records, 4, 2) == [Record(3, 0)];
    var t := Register(s, 2, LUCKY).0;
    assert t.records == [Record(3, 0), Record(4, 2)];
    assert t.kernel == map[3 := 0, 4 := 2] && t.heap == {0, 1, 2, 3};
    assert t.watchers == TWO.watchers;
  }

  const ENTRIES: seq<Option<nat>> := [Some(0), Some(2)]

  /** Two watchers are ready, and the callback of the first destroys the second: the loop goes on through
      the freed watcher. */
  lemma DestroyInBatchRun() returns (run: seq<State>, steps: seq<Step>, scripts: seq<seq<Step>>)
    ensures IsRun(run, steps) && B.Sampled(run[|steps|], ENTRIES)
    ensures scripts == [[DestroyStep(2)], []] && B.AllAllowed(run[|steps|], ENTRIES, scripts)
    ensures B.RunBatch(run[|steps|], ENTRIES, scripts).touchedDead
  {
    hide Create, B.RunBatch, B.AllAllowed, B.Sampled, B.Expected;
    run, steps := RegisteredRun();
    assert Open(REGISTERED, 4) == TWO_OPEN;
    run, steps := Extended(run, steps, OpenStep(4), TWO_OPEN);
    OtherIsCreated();
    run, steps := Extended(run, steps, CreateStep(4, true, true, LUCKY, true), TWO);
    scripts := [[DestroyStep(2)], []];
    TwoAreSampled();
    ScriptsAreAllowed();
    B.BatchRunsEachEntryOnce(run, steps, |steps|, ENTRIES, scripts);
    assert B.DestroysLater(TWO, ENTRIES, scripts, 0, 1);
  }

  lemma TwoAreSampled()
    ensures B.Sampled(TWO, ENTRIES)
  {
    assert B.SampledBy(TWO, ENTRIES, [3, 4]);
  }

  lemma ScriptsAreAllowed()
    ensures B.AllAllowed(TWO, ENTRIES, [[DestroyStep(2)], []])
  {
    hide Destroy;
    assert B.Allowed(TWO, [DestroyStep(2)]);
    var t := B.RunEntry(TWO, Some(0), [DestroyStep(2)]).state;
    assert B.Allowed(t, []);
    assert [[DestroyStep(2)], []][1..] == [[]] && ENTRIES[1..] == [Some(2)];
    assert B.AllAllowed(t, [Some(2)], [[]]);
  }
}
