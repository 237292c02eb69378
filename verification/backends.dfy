/** The two backends refine one ownership specification: in every run, the epoll kernel set and the
    owners of the kqueue filters are what the history of registrations, closes and unregistrations
    says, however descriptor numbers are recycled on the way. */
module Backends {
  import opened Ownership
  import E = Epoll
  import K = Kqueue

  /* ---------------- epoll ---------------- */

  /** What a step means for the owners. */
  function EpollEvent(s: E.State, step: E.Step): Event
    requires E.Enabled(s, step)
  {
    match step
    case OpenStep(_) => Nothing
    case CloseStep(fd) => Closed(fd)
    case CreateStep(fd, hasCallback, structMem, luck, listMem) =>
      var w := E.Create(s, fd, hasCallback, structMem, luck, listMem).1;
      if w.Some? then Registered(fd, w.value) else Nothing
    case StartStep(w, luck) =>
      if !s.watchers[w].active && E.Start(s, w, luck).1.Ok? then Registered(s.watchers[w].fd, w) else Nothing
    case StopStep(w) => Unregistered(w)
    case UpdateStep(_) => Nothing
    case DestroyStep(w) => Unregistered(w)
  }

  lemma EpollRefines(s: E.State, step: E.Step)
    requires E.Inv(s) && E.Enabled(s, step)
    ensures Legal(s.kernel, EpollEvent(s, step))
    ensures E.Next(s, step).kernel == Next(s.kernel, EpollEvent(s, step))
  {
    match step
    case OpenStep(_) =>
    case CloseStep(_) =>
    case CreateStep(fd, hasCallback, structMem, luck, listMem) => EpollCreateRefines(s, fd, hasCallback, structMem, luck, listMem);
    case StartStep(w, luck) => EpollStartRefines(s, w, luck);
    case StopStep(w) => E.StopEffect(s, w);
    case UpdateStep(w) => E.UpdateEffect(s, w);
    case DestroyStep(w) => E.DestroyEffect(s, w);
  }

  lemma EpollCreateRefines(s: E.State, fd: int, hasCallback: bool, structMem: bool, luck: E.Luck, listMem: bool)
    requires E.Inv(s) && fd !in s.kernel
    ensures var (t, w) := E.Create(s, fd, hasCallback, structMem, luck, listMem);
            var e := if w.Some? then Registered(fd, w.value) else Nothing;
            Legal(s.kernel, e) && t.kernel == Next(s.kernel, e)
  {
    E.CreateEffect(s, fd, hasCallback, structMem, luck, listMem);
    E.NewbornKeepsInv(s, fd, hasCallback);
    E.NotActiveNotInKernel(s, s.nextBlock);
    Undropped(s.kernel, s.nextBlock);
  }

  lemma EpollStartRefines(s: E.State, w: nat, luck: E.Luck)
    requires E.Inv(s) && E.Enabled(s, E.StartStep(w, luck))
    ensures var e := EpollEvent(s, E.StartStep(w, luck));
            Legal(s.kernel, e) && E.Start(s, w, luck).0.kernel == Next(s.kernel, e)
  {
    if !s.watchers[w].active {
      E.StartEffect(s, w, luck);
      E.NotActiveNotInKernel(s, w);
      Undropped(s.kernel, w);
    }
  }

  lemma Undropped(m: Owners, w: nat)
    requires Drop(m, w) == m
    ensures forall fd <- m :: m[fd] != w
  {
    forall fd <- m ensures m[fd] != w {
      assert fd in Drop(m, w);
    }
  }

  ghost function EpollHistory(run: seq<E.State>, steps: seq<E.Step>, n: nat): (events: seq<Event>)
    requires E.IsRun(run, steps) && n < |run|
    ensures |events| == n
  {
    seq(n, i requires 0 <= i < n => EpollEvent(run[i], steps[i]))
  }

  lemma EpollHistoryStep(run: seq<E.State>, steps: seq<E.Step>, n: nat)
    requires E.IsRun(run, steps) && 0 < n < |run|
    ensures E.Enabled(run[n - 1], steps[n - 1]) && run[n] == E.Next(run[n - 1], steps[n - 1])
    ensures EpollHistory(run, steps, n) == EpollHistory(run, steps, n - 1) + [EpollEvent(run[n - 1], steps[n - 1])]
  {
    hide E.Next, E.Enabled, EpollEvent;
  }

  lemma {:induction false} EpollIsOwnership(run: seq<E.State>, steps: seq<E.Step>, n: nat)
    requires E.IsRun(run, steps) && n < |run|
    ensures Lawful(EpollHistory(run, steps, n)) && run[n].kernel == After(EpollHistory(run, steps, n))
  {
    hide E.Next, E.Enabled, E.Inv, EpollEvent;
    if n > 0 {
      EpollIsOwnership(run, steps, n - 1);
      E.RunKeepsInv(run, steps, n - 1);
      EpollHistoryStep(run, steps, n);
      EpollRefines(run[n - 1], steps[n - 1]);
      LawfulStep(EpollHistory(run, steps, n - 1), EpollEvent(run[n - 1], steps[n - 1]), EpollHistory(run, steps, n));
    }
  }

  lemma LawfulStep(events: seq<Event>, e: Event, es: seq<Event>)
    requires Lawful(events) && Legal(After(events), e)
    requires es == events + [e]
    ensures Lawful(es) && After(es) == Next(After(events), e)
  {
    assert es[..|events|] == events;
    assert forall i :: 0 <= i < |events| ==> es[..i] == events[..i];
  }

  /* ---------------- kqueue ---------------- */

  /** What a step means for the owners; a registration on a number that is not open owns nothing. */
  ghost function KqueueEvent(s: K.State, step: K.Step): Event
    requires K.Recording(s) && K.Enabled(s, step)
  {
    match step
    case OpenStep(_) => Nothing
    case CloseStep(fd) => Closed(fd)
    case CreateStep(fd, mask, structMem, luck, listMem) =>
      var w := K.Create(s, fd, mask, structMem, luck, listMem).1;
      if w.Some? && fd in s.files then Registered(fd, w.value) else Nothing
    case StartStep(w, luck) =>
      if !s.watchers[w].active && K.Start(s, w, luck).1.Ok? && s.watchers[w].fd in s.files then Registered(s.watchers[w].fd, w) else Nothing
    case StopStep(w) => Unregistered(w)
    case DestroyStep(w) => Unregistered(w)
  }

  lemma KqueueRefines(s: K.State, step: K.Step)
    requires K.Inv(s) && K.Enabled(s, step)
    ensures Legal(K.Owner(s), KqueueEvent(s, step))
    ensures K.Inv(K.Next(s, step)) && K.Owner(K.Next(s, step)) == Next(K.Owner(s), KqueueEvent(s, step))
  {
    hide K.Inv, K.Create, K.Start, K.Stop, K.Destroy;
    match step
    case OpenStep(fd) => K.OpenKeepsInv(s, fd);
    case CloseStep(fd) => K.CloseKeepsInv(s, fd);
    case CreateStep(fd, mask, structMem, luck, listMem) => KqueueCreateRefines(s, fd, mask, structMem, luck, listMem);
    case StartStep(w, luck) => KqueueStartRefines(s, w, luck);
    case StopStep(w) => K.StopEffect(s, w);
    case DestroyStep(w) => K.DestroyEffect(s, w);
  }

  lemma KqueueCreateRefines(s: K.State, fd: int, mask: K.Mask, structMem: bool, luck: K.Luck, listMem: bool)
    requires K.Inv(s) && fd !in K.Owner(s) && !K.Partial(s, fd, mask, luck)
    ensures var (t, w) := K.Create(s, fd, mask, structMem, luck, listMem);
            var e := if w.Some? && fd in s.files then Registered(fd, w.value) else Nothing;
            && Legal(K.Owner(s), e) && K.Inv(t) && K.Owner(t) == Next(K.Owner(s), e)
  {
    K.CreateEffect(s, fd, mask, structMem, luck, listMem);
    K.NewbornKeepsInv(s, fd, mask);
    K.NotOwnerNotDropped(s, s.nextWatcher);
    Undropped(K.Owner(s), s.nextWatcher);
  }

  lemma KqueueStartRefines(s: K.State, w: nat, luck: K.Luck)
    requires K.Inv(s) && K.Enabled(s, K.StartStep(w, luck))
    ensures var e := KqueueEvent(s, K.StartStep(w, luck));
            var t := K.Start(s, w, luck).0;
            && Legal(K.Owner(s), e) && K.Inv(t) && K.Owner(t) == Next(K.Owner(s), e)
  {
    if !s.watchers[w].active {
      K.StartEffect(s, w, luck);
      K.NotOwnerNotDropped(s, w);
      Undropped(K.Owner(s), w);
    }
  }

  ghost function KqueueHistory(run: seq<K.State>, steps: seq<K.Step>, n: nat): (events: seq<Event>)
    requires K.IsRun(run, steps) && n < |run|
    ensures |events| == n
  {
    seq(n, i requires 0 <= i < n => KqueueEvent(run[i], steps[i]))
  }

  lemma {:induction false} KqueueIsOwnership(run: seq<K.State>, steps: seq<K.Step>, n: nat)
    requires K.IsRun(run, steps) && n < |run|
    ensures Lawful(KqueueHistory(run, steps, n))
    ensures K.Inv(run[n]) && K.Owner(run[n]) == After(KqueueHistory(run, steps, n))
  {
    hide K.Next, K.Enabled, K.Inv, K.Recording, KqueueEvent;
    if n > 0 {
      KqueueIsOwnership(run, steps, n - 1);
      KqueueRefines(run[n - 1], steps[n - 1]);
      LawfulStep(KqueueHistory(run, steps, n - 1), KqueueEvent(run[n - 1], steps[n - 1]), KqueueHistory(run, steps, n));
    } else {
      NobodyOwnsAtStart(run, steps);
    }
  }

  lemma NobodyOwnsAtStart(run: seq<K.State>, steps: seq<K.Step>)
    requires K.IsRun(run, steps)
    ensures K.Inv(run[0]) && K.Owner(run[0]) == map[]
  {
    K.RunKeepsInv(run, steps, 0);
    K.OwnerIs(run[0], map[]);
  }

  /* ---------------- the main results ---------------- */

  /** epoll: the kernel holds (fd, w) exactly when w was registered on fd and since then fd was not
      closed, nor w stopped or destroyed. */
  lemma EpollKernelIsHistory(run: seq<E.State>, steps: seq<E.Step>, n: nat, fd: int, w: nat)
    requires E.IsRun(run, steps) && n < |run|
    ensures fd in run[n].kernel && run[n].kernel[fd] == w <==> Standing(EpollHistory(run, steps, n), fd, w)
  {
    EpollIsOwnership(run, steps, n);
    OwnersAreStanding(EpollHistory(run, steps, n), fd, w);
  }

  /** kqueue: a filter (fd, f) names w exactly when f is in w's mask, w was registered on the open
      number fd, and since then fd was not closed, nor w stopped or destroyed. */
  lemma KqueueFiltersAreHistory(run: seq<K.State>, steps: seq<K.Step>, n: nat, fd: int, f: K.Filter, w: nat)
    requires K.IsRun(run, steps) && n < |run|
    ensures var s := run[n];
            (fd, f) in s.kernel && s.kernel[(fd, f)] == w <==>
            Standing(KqueueHistory(run, steps, n), fd, w) && w in s.watchers && s.watchers[w].mask.Has(f)
  {
    KqueueIsOwnership(run, steps, n);
    K.OwnershipAlways(run, steps, n);
    OwnersAreStanding(KqueueHistory(run, steps, n), fd, w);
  }

  /** One specification, two backends: after the same history of registrations, closes and
      unregistrations both give every number to the same watcher. */
  lemma BackendsAgree(erun: seq<E.State>, esteps: seq<E.Step>, krun: seq<K.State>, ksteps: seq<K.Step>, n: nat)
    requires E.IsRun(erun, esteps) && K.IsRun(krun, ksteps) && n < |erun| && n < |krun|
    requires EpollHistory(erun, esteps, n) == KqueueHistory(krun, ksteps, n)
    ensures K.Inv(krun[n]) && erun[n].kernel == K.Owner(krun[n])
  {
    EpollIsOwnership(erun, esteps, n);
    KqueueIsOwnership(krun, ksteps, n);
  }
}
