/** pd_loop_run and the calls that stop and wake it, in place.  What other threads do between two of the
    loop's actions is given as a list of their steps, and every action is shown to be a step of the
    machine of Wake, so that whole executions of these methods are runs of that machine. */
module WakeLoop {
  import opened Options
  import opened Wake

  /** The state that the steps lead to, if each is allowed in its turn. */
  function After(maxEvents: nat, s: State, steps: seq<Step>): Option<State>
  {
    if steps == [] then Some(s)
    else
      var n := |steps| - 1;
      var t := After(maxEvents, s, steps[..n]);
      if t.Some? && Enabled(maxEvents, t.value, steps[n]) then Some(Next(maxEvents, t.value, steps[n])) else None
  }

  lemma {:induction false} AfterIsReached(maxEvents: nat, steps: seq<Step>)
    requires After(maxEvents, START, steps).Some?
    ensures Reaches(maxEvents, steps, After(maxEvents, START, steps).value)
  {
    if steps != [] {
      var n := |steps| - 1;
      AfterIsReached(maxEvents, steps[..n]);
      Then(maxEvents, steps[..n], After(maxEvents, START, steps[..n]).value, steps[n]);
      assert steps[..n] + [steps[n]] == steps;
    }
  }

  lemma ReachedKeepsInv(maxEvents: nat, steps: seq<Step>)
    requires After(maxEvents, START, steps).Some?
    ensures Inv(maxEvents, After(maxEvents, START, steps).value)
  {
    AfterIsReached(maxEvents, steps);
    RunKeepsInv(maxEvents, RunOf(maxEvents, steps), steps, |steps|);
  }

  /** What happens while the loop goes round once: what others do before the condition, before the
      check, and during the wait; and what epoll_wait returns: -1 on an error, else so many entries,
      the eventfd first among them when it is reported. */
  datatype Round = Round(atTest: seq<Step>, watchers: bool, atCheck: seq<Step>, inWait: seq<Step>,
                         fails: bool, entries: nat, eventfd: bool, readOk: bool, between: seq<seq<Step>>)

  class Loop {
    const maxEvents: nat
    var running: bool
    var stopRequested: bool
    var counter: nat
    var asyncData: Option<nat>
    var ops: map<nat, Op>
    ghost var machine: State
    ghost var steps: seq<Step>

    constructor (maxEvents: nat)
      ensures Valid() && machine == START && this.maxEvents == maxEvents
    {
      this.maxEvents, running, stopRequested, counter, asyncData, ops := maxEvents, false, false, 0, None, map[];
      machine, steps := START, [];
    }

    /** The fields are those of the machine, which the steps taken so far have led to. */
    ghost predicate Valid()
      reads this
    {
      && machine.flag == stopRequested && machine.counter == counter && machine.data == asyncData && machine.ops == ops
      && After(maxEvents, START, steps) == Some(machine)
    }

    ghost method Take(step: Step)
      requires After(maxEvents, START, steps) == Some(machine) && Enabled(maxEvents, machine, step)
      modifies `machine, `steps
      ensures steps == old(steps) + [step] && machine == Next(maxEvents, old(machine), step)
      ensures After(maxEvents, START, steps) == Some(machine)
    {
      assert (steps + [step])[..|steps|] == steps;
      machine, steps := Next(maxEvents, machine, step), steps + [step];
    }

    /** The store of pd_loop_stop or pd_loop_async_send, under the mutex. */
    method StoreRequest(id: nat, kind: Kind)
      requires Valid() && id !in ops
      modifies `stopRequested, `asyncData, `ops, `machine, `steps
      ensures Valid() && machine == Next(maxEvents, old(machine), Store(id, kind))
      ensures steps == old(steps) + [Store(id, kind)]
    {
      if kind.Stop? {
        stopRequested := true;
      } else {
        asyncData := Some(kind.value);
      }
      ops := ops[id := Op(kind, false)];
      Take(Store(id, kind));
    }

    /** epoll_async_send: add one to the counter; EAGAIN at the maximum is ignored. */
    method AsyncSend(id: nat)
      requires Valid() && id in ops && !ops[id].written
      modifies `counter, `ops, `machine, `steps
      ensures Valid() && machine == Next(maxEvents, old(machine), Write(id))
      ensures steps == old(steps) + [Write(id)]
    {
      if counter + 1 <= MAX {
        counter := counter + 1;
      }
      ops := ops[id := ops[id].(written := true)];
      Take(Write(id));
    }

    /** Other threads' steps, as far as they can be taken. */
    method Others(them: seq<Step>)
      requires Valid()
      modifies `stopRequested, `asyncData, `counter, `ops, `machine, `steps
      ensures Valid() && machine.place == old(machine.place) && machine.waits == old(machine.waits)
      ensures old(stopRequested) ==> stopRequested
    {
      for k := 0 to |them|
        invariant Valid() && machine.place == old(machine.place) && machine.waits == old(machine.waits)
        invariant old(stopRequested) ==> stopRequested
      {
        match them[k]
        case Store(id, kind) =>
          if id !in ops {
            StoreRequest(id, kind);
          }
        case Write(id) =>
          if id in ops && !ops[id].written {
            AsyncSend(id);
          }
        case _ =>
      }
    }

    /** The batch of epoll_loop_run: the entry of the eventfd, if it is reported, reads the counter. */
    method ProcessBatch(entries: nat, eventfd: bool, readOk: bool, between: seq<seq<Step>>)
      requires Valid() && machine.place == Batch(entries, eventfd) && (eventfd ==> entries > 0)
      modifies `stopRequested, `asyncData, `counter, `ops, `machine, `steps
      ensures Valid() && machine.place == Test(false) && machine.waits == old(machine.waits)
      ensures old(stopRequested) ==> stopRequested
    {
      for k := 0 to entries
        invariant Valid() && machine.place == Batch(entries - k, eventfd && k == 0) && machine.waits == old(machine.waits)
        invariant old(stopRequested) ==> stopRequested
      {
        if k < |between| {
          Others(between[k]);
        }
        if eventfd && k == 0 && readOk {
          counter := 0;
        }
        Take(Process(eventfd && k == 0, readOk));
      }
      Take(EndBatch);
    }

    /** pd_loop_run_once: check the flag under the mutex, then wait without it. */
    method RunOnce(r: Round) returns (result: int)
      requires Valid() && machine.place.Check?
      modifies `stopRequested, `asyncData, `counter, `ops, `machine, `steps
      ensures Valid() && if result < 0 then machine.place.Outside? else machine.place.Test?
      ensures old(stopRequested) ==> stopRequested && result == 0 && machine.waits == old(machine.waits)
      ensures machine.waits == old(machine.waits) || machine.waits == old(machine.waits) + 1
      ensures result < 0 ==> result == -1 && r.fails && machine.waits == old(machine.waits)
      ensures machine.waits > old(machine.waits) ==> !r.fails && result == if r.entries <= maxEvents then r.entries else maxEvents
      ensures machine.waits == old(machine.waits) && result >= 0 ==> result == 0 && machine.place == Test(true)
    {
      Others(r.atCheck);
      var shouldStop := stopRequested;
      Take(CheckFlag);
      if shouldStop {
        return 0;
      }
      Others(r.inWait);
      if r.fails {
        Take(Fail);
        return -1;
      }
      var n := if r.entries <= maxEvents then r.entries else maxEvents;
      var eventfd := r.eventfd && counter > 0 && n > 0;
      Take(Return(n, eventfd));
      ProcessBatch(n, eventfd, r.readOk, r.between);
      return n;
    }

    /** pd_loop_run, for as many rounds as are given.  Whatever the other threads do meanwhile, the
        execution is a run of the machine, so its invariant holds at every step.  It returns 0 when the
        watchers or the stop flag end it, at the latest in the first round without watchers, and
        without a wait if that is round 0; and it returns an error only when a wait fails. */
    method Run(rounds: seq<Round>) returns (result: Option<int>)
      requires Valid() && machine.place.Outside?
      modifies this
      ensures Valid() && (result.Some? <==> machine.place.Outside?)
      ensures result.Some? ==> !running
      ensures Inv(maxEvents, machine) && machine.waits <= old(machine.waits) + |rounds|
      ensures result.None? ==> forall k :: 0 <= k < |rounds| ==> rounds[k].watchers
      ensures rounds != [] && !rounds[0].watchers ==> result == Some(0) && machine.waits == old(machine.waits)
      ensures result.Some? && result.value != 0 ==> result.value == -1 && exists k :: 0 <= k < |rounds| && rounds[k].fails
      ensures result == Some(0) ==> machine.flag || exists k :: 0 <= k < |rounds| && !rounds[k].watchers
    {
      hide Next, Enabled, After, Inv;
      BeginRun();
      for k := 0 to |rounds|
        invariant Valid() && machine.place.Test? && machine.waits <= old(machine.waits) + k
        invariant forall j :: 0 <= j < k ==> rounds[j].watchers
        invariant k == 0 ==> machine.waits == old(machine.waits)
      {
        Others(rounds[k].atTest);
        var goOn := Condition(rounds[k].watchers);
        if !goOn {
          running := false;
          ReachedKeepsInv(maxEvents, steps);
          return Some(0);
        }
        var once := RunOnce(rounds[k]);
        if once < 0 {
          running := false;
          ReachedKeepsInv(maxEvents, steps);
          return Some(once);
        }
      }
      ReachedKeepsInv(maxEvents, steps);
      return None;
    }

    /** The entry to pd_loop_run: running is set and the stop flag cleared. */
    method BeginRun()
      requires Valid() && machine.place.Outside?
      modifies `running, `stopRequested, `machine, `steps
      ensures Valid() && running && machine == Next(maxEvents, old(machine), Enter) && steps == old(steps) + [Enter]
      ensures machine.place == Test(false) && !machine.flag && machine.waits == old(machine.waits)
    {
      running := true;
      stopRequested := false;
      Take(Enter);
    }

    /** The while condition: no stop is requested, and a watcher is left. */
    method Condition(watchers: bool) returns (goOn: bool)
      requires Valid() && machine.place.Test?
      modifies `machine, `steps
      ensures Valid() && machine == Next(maxEvents, old(machine), TestFlag(stopRequested, watchers))
      ensures steps == old(steps) + [TestFlag(stopRequested, watchers)]
      ensures (goOn <==> !stopRequested && watchers) && machine.waits == old(machine.waits)
      ensures if goOn then machine.place.Check? else machine.place.Outside?
    {
      goOn := !stopRequested && watchers;
      Take(TestFlag(stopRequested, watchers));
    }
  }
}
