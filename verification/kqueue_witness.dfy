/** Runs from the freshly created loop in which the conditions of the kqueue effects fail. */
module KqueueWitness {
  import opened Growable
  import opened Options
  import opened Kqueue

  const LUCKY := Luck(true, 2, true)
  const PARTIAL := Luck(true, 1, true)
  const BOTH := Mask(true, true)
  const READ := Mask(true, false)

  lemma Extended(run: seq<State>, steps: seq<Step>, step: Step, t: State) returns (run': seq<State>, steps': seq<Step>)
    requires IsRun(run, steps) && Recording(run[|steps|]) && Enabled(run[|steps|], step) && t == Next(run[|steps|], step)
    ensures IsRun(run', steps') && run'[|steps'|] == t
  {
    hide Enabled, Next, Recording;
    run', steps' := run + [t], steps + [step];
  }

  /** A kernel entry names a watcher that has been freed. */
  predicate Dangling(s: State, fd: int, f: Filter) { (fd, f) in s.kernel && s.kernel[(fd, f)] !in s.watchers }

  const OPENED := START.(files := map[3 := 0], nextFile := 1)

  lemma OpenedRun() returns (run: seq<State>, steps: seq<Step>)
    ensures IsRun(run, steps) && run[|steps|] == OPENED && Inv(OPENED) && Recording(OPENED)
  {
    run, steps := [START], [];
    assert Recording(START);
    assert Open(START, 3) == OPENED;
    run, steps := Extended(run, steps, OpenStep(3), OPENED);
    RunKeepsInv(run, steps, |steps|);
  }

  /** Watcher 0 on number 3, with this mask. */
  function Registered(mask: Mask): State
  {
    OPENED.(kernel := Fill(map[], 3, mask, 0), records := [Record(3, 0)], capacity := 8, nextWatcher := 1,
            watchers := map[0 := Watcher(3, mask, true, true, Some(0))])
  }

  lemma FirstIsCreated(mask: Mask)
    ensures Create(OPENED, 3, mask, true, LUCKY, true) == (Registered(mask), Some(0))
  {
    var s := SetActive(Newborn(OPENED, 3, mask), 0, true);
    AddsUnfold(map[], OPENED.files, 3, mask, 0, 2);
    assert Evict(s.records, 3, 0) == [];
    var t := Register(s, 0, LUCKY).0;
    assert t.records == [Record(3, 0)];
    assert t.watchers == map[0 := Watcher(3, mask, true, true, Some(0))];
  }

  lemma RegisteredRun(mask: Mask) returns (run: seq<State>, steps: seq<Step>)
    ensures IsRun(run, steps) && run[|steps|] == Registered(mask) && Inv(Registered(mask)) && Owns(Registered(mask), 3, 0)
  {
    hide Create, Fill, Inv;
    run, steps := OpenedRun();
    FirstIsCreated(mask);
    NobodyOwns(3);
    run, steps := Extended(run, steps, CreateStep(3, mask, true, LUCKY, true), Registered(mask));
    RunKeepsInv(run, steps, |steps|);
  }

  lemma NobodyOwns(fd: int)
    requires Recording(OPENED)
    ensures fd !in Owner(OPENED)
  {
    assert fd in Owner(OPENED) ==> Owns(OPENED, fd, Owner(OPENED)[fd]);
  }

  /** The kernel takes the READ filter and refuses the WRITE filter: the creation fails and frees the
      watcher, and the READ filter stays and names it. */
  lemma PartialCreateRun() returns (run: seq<State>, steps: seq<Step>)
    ensures IsRun(run, steps)
    ensures var (t, made) := Create(run[|steps|], 3, BOTH, true, PARTIAL, true);
            made == None && !Inv(t) && Dangling(t, 3, Read)
  {
    run, steps := OpenedRun();
    CreateEffect(OPENED, 3, BOTH, true, PARTIAL, true);
    AddsUnfold(map[], OPENED.files, 3, BOTH, 0, 1);
    hide Inv;
  }

  lemma StartOf(s: State, mask: Mask)
    requires s == Stop(Registered(mask), 0).0 && s.files == OPENED.files && s.kernel == map[] && s.records == []
    requires s.watchers == map[0 := Watcher(3, mask, false, false, Some(0))]
    ensures mask == BOTH ==>
              var (t, code) := Start(s, 0, PARTIAL);
              code == SystemError && t.kernel == map[(3, Read) := 0] && t.watchers == s.watchers && Dangling(Destroy(t, 0), 3, Read)
  {
    AddsUnfold(map[], OPENED.files, 3, mask, 0, 1);
    assert Evict(s.records, 3, 0) == [];
    if mask == BOTH {
      var t := Start(s, 0, PARTIAL).0;
      assert t.watchers == s.watchers;
      assert Destroy(t, 0) == FreeStruct(t, 0);
    }
  }

  lemma FirstIsStopped(mask: Mask)
    requires Inv(Registered(mask))
    ensures var t := Stop(Registered(mask), 0).0;
            t == Registered(mask).(kernel := map[], records := [], watchers := map[0 := Watcher(3, mask, false, false, Some(0))])
  {
    var s := Registered(mask);
    StopShape(s, 0);
    assert SwapRemove([Record(3, 0)], 0) == [];
    FillLookup(map[], 3, mask, 0);
    Masks(mask);
    DeletesAll(s.kernel, s.files, 3, mask);
    assert Erase(s.kernel, 3, mask) == map[];
    hide Inv, Stop, Submit, Fill;
  }

  /** The same when a stopped watcher is started again. */
  lemma PartialStartRun() returns (run: seq<State>, steps: seq<Step>)
    ensures IsRun(run, steps) && 0 in run[|steps|].watchers && !run[|steps|].watchers[0].active
    ensures var (t, code) := Start(run[|steps|], 0, PARTIAL);
            code == SystemError && !Inv(t) && 0 in t.watchers && Dangling(Destroy(t, 0), 3, Read)
  {
    run, steps := RegisteredRun(BOTH);
    FirstIsStopped(BOTH);
    var s := Stop(Registered(BOTH), 0).0;
    run, steps := Extended(run, steps, StopStep(0), s);
    RunKeepsInv(run, steps, |steps|);
    StartOf(s, BOTH);
    StartEffect(s, 0, PARTIAL);
    hide Inv, Start, Stop, Destroy, IsRun;
  }

  /** A second watcher is registered on an owned number.  It succeeds, takes the kernel entries over and
      evicts the owner's record; when it is destroyed, the owner is active on its open file without any
      filter, and will never be called back again. */
  lemma SecondCreateRun() returns (run: seq<State>, steps: seq<Step>)
    ensures IsRun(run, steps)
    ensures var (t, made) := Create(run[|steps|], 3, READ, true, LUCKY, true);
            && made == Some(1) && !Inv(t)
            && Owns(Destroy(t, 1), 3, 0) && Destroy(t, 1).kernel == map[]
  {
    run, steps := RegisteredRun(READ);
    CreateEffect(Registered(READ), 3, READ, true, LUCKY, true);
    SecondTakesOver();
    hide Inv, Create, Destroy, IsRun;
  }

  /** Watcher 1 has taken over number 3 from watcher 0. */
  const TAKEN := Registered(READ).(kernel := map[(3, Read) := 1], records := [Record(3, 1)], nextWatcher := 2,
                                   watchers := map[0 := Watcher(3, READ, true, true, Some(0)), 1 := Watcher(3, READ, true, true, Some(0))])

  lemma SecondTakesOver()
    ensures var (t, made) := Create(Registered(READ), 3, READ, true, LUCKY, true);
            made == Some(1) && Owns(Destroy(t, 1), 3, 0) && Destroy(t, 1).kernel == map[]
  {
    SecondIsCreated();
    hide Create, Destroy;
    SecondIsDestroyed();
  }

  lemma SecondIsCreated()
    ensures Create(Registered(READ), 3, READ, true, LUCKY, true) == (TAKEN, Some(1))
  {
    var s := SetActive(Newborn(Registered(READ), 3, READ), 1, true);
    AddsUnfold(s.kernel, s.files, 3, READ, 1, 2);
    assert FindStale([Record(3, 0)], 3, 1) == 0;
    assert Evict(s.records, 3, 1) == [];
    var t := Register(s, 1, LUCKY).0;
    assert t.records == [Record(3, 1)] && t.kernel == map[(3, Read) := 1];
    assert t.watchers == TAKEN.watchers;
  }

  lemma SecondIsDestroyed()
    ensures Owns(Destroy(TAKEN, 1), 3, 0) && Destroy(TAKEN, 1).kernel == map[]
  {
    StopShape(TAKEN, 1);
    DeletesUnfold(TAKEN.kernel, TAKEN.files, 3, READ);
    assert FindWatcher(TAKEN.records, 1) == 0;
    var u := Stop(TAKEN, 1).0;
    hide Stop;
    assert u.kernel == map[] && !u.watchers[1].data;
  }

  /** A watcher that was registered for READ is updated to WRITE and destroyed: the READ filter stays and
      names the freed watcher. */
  lemma UpdateRun() returns (run: seq<State>, steps: seq<Step>)
    ensures IsRun(run, steps) && 0 in run[|steps|].watchers
    ensures var u := Update(run[|steps|], 0, Mask(false, true), 2).0;
            0 in u.watchers && Dangling(Destroy(u, 0), 3, Read)
  {
    run, steps := RegisteredRun(READ);
    UpdateIssuesNothing(Registered(READ), 0, Mask(false, true), 2);
    UpdatedDangles();
    hide Update, Destroy, IsRun, Inv;
  }

  lemma UpdatedDangles()
    ensures var u := Registered(READ).(watchers := map[0 := Watcher(3, Mask(false, true), true, true, Some(0))]);
            Dangling(Destroy(u, 0), 3, Read)
  {
    var u := Registered(READ).(watchers := map[0 := Watcher(3, Mask(false, true), true, true, Some(0))]);
    StopShape(u, 0);
    DeletesUnfold(u.kernel, u.files, 3, Mask(false, true));
    var t := Stop(u, 0).0;
    assert t.kernel == u.kernel && !t.watchers[0].data;
    assert Destroy(u, 0) == FreeStruct(t, 0);
  }
}
