/** Runs from the freshly created loop in which kqueue timers go wrong. */
module KqueueTimerWitness {
  import opened KqueueTimer

  lemma Extended(run: seq<State>, steps: seq<Step>, step: Step, t: State) returns (run': seq<State>, steps': seq<Step>)
    requires IsRun(run, steps) && Enabled(run[|steps|], step) && t == Next(run[|steps|], step)
    ensures IsRun(run', steps') && run'[|steps'|] == t && run' == run + [t] && steps' == steps + [step]
  {
    hide Enabled, Next;
    run', steps' := run + [t], steps + [step];
  }

  /** Timer 0, started, with its first event in the batch. */
  function Fired(x: Timer): State
  {
    State(map[0 := x.(active := true, registered := true, pendingInitial := TwoPhase(x))], 1,
          if TwoPhase(x) then map[] else map[0 := FirstEntry(x)], [0], [0], [], false)
  }

  lemma FiredRun(timeout: nat, interval: nat) returns (run: seq<State>, steps: seq<Step>)
    ensures IsRun(run, steps) && run[|steps|] == Fired(Timer(timeout, interval, false, false, false))
  {
    var x := Timer(timeout, interval, false, false, false);
    run, steps := [START], [];
    var s1 := Create(START, timeout, interval, true);
    assert s1 == State(map[0 := x], 1, map[], [], [0], [], false);
    run, steps := Extended(run, steps, CreateStep(timeout, interval, true), s1);
    var s2 := Start(s1, 0, true);
    assert s2.kernel == map[0 := FirstEntry(x)];
    run, steps := Extended(run, steps, StartStep(0, true), s2);
    var s3 := Wait(s2, [0]);
    assert s3.kernel == Fired(x).kernel;
    run, steps := Extended(run, steps, WaitStep([0]), s3);
  }

  /** In one batch: a two-phase timer fires, an earlier callback stops it and fails to start it again; its
      event then arms the timer, which is not registered. */
  lemma FailedRestartRun() returns (run: seq<State>, steps: seq<Step>)
    ensures IsRun(run, steps) && run[|steps|].batch == [0] && 0 in run[|steps|].timers && !run[|steps|].timers[0].active
    ensures var t := Start(run[|steps|], 0, false);
            var u := Dispatch(t, true);
            0 in u.timers && !u.timers[0].registered && !u.timers[0].active && 0 in u.kernel
  {
    run, steps := FiredRun(5, 10);
    var s := Stop(run[|steps|], 0);
    run, steps := Extended(run, steps, StopStep(0), s);
    RunKeepsInv(run, steps, |steps|);
    assert Sound(s, 0);
  }

  /** A timer fires and an earlier callback of the same batch destroys it: the invariant is lost, and the
      loop goes through the freed timer. */
  lemma DestroyedInBatchRun() returns (run: seq<State>, steps: seq<Step>)
    ensures IsRun(run, steps) && 0 in run[|steps|].timers && run[|steps|].batch == [0]
    ensures !Inv(Destroy(run[|steps|], 0)) && Dispatch(Destroy(run[|steps|], 0), true).touchedDead
  {
    run, steps := FiredRun(5, 10);
    RunKeepsInv(run, steps, |steps|);
    DestroyedInBatch(run[|steps|], 0);
  }

  /** A timer without interval fires, and the kernel will fire it again. */
  lemma OneShotRun() returns (run: seq<State>, steps: seq<Step>)
    ensures IsRun(run, steps) && 0 in run[|steps|].timers && run[|steps|].timers[0].interval == 0
    ensures run[|steps|].batch == [0] && run[|steps|].kernel == map[0 := Entry(5, false)]
  {
    run, steps := FiredRun(5, 0);
  }

  /** The EV_ADD of the second phase fails, and its outcome is ignored: the timer is active and registered,
      but the kernel has no entry for it and no event is left, so that it never fires again. */
  lemma LostTimerRun() returns (run: seq<State>, steps: seq<Step>)
    ensures IsRun(run, steps) && run[|steps|].batch == [0]
    ensures var u := Dispatch(run[|steps|], false);
            0 in u.timers && u.timers[0].active && u.timers[0].registered && 0 !in u.kernel && u.batch == []
  {
    run, steps := FiredRun(5, 10);
  }
}
