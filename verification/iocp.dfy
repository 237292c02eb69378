/** The IOCP backend as a whole: the loop thread, application threads, the Windows timer thread and
    the kernel share one completion port, and take steps in any order. */
module Iocp {
  import P = IocpPort
  import W = IocpWatcher
  import S = IocpSafety
  import T = IocpTimer

  datatype Sys = Sys(port: P.Port, io: W.World, timers: T.World)

  datatype Move =
    | EnterLoop(thread: nat)
    | Fetch(count: nat)
    | Io(step: S.Step)
    | Timer(tstep: T.Step)
    | PostWake
    | SkipPacket

  const START := Sys(P.EMPTY, W.START, T.START)

  ghost predicate Enabled(strict: bool, s: Sys, m: Move)
  {
    match m
    case EnterLoop(thread) => thread > 0 && (s.io.loopThread == 0 || s.io.loopThread == thread) && s.timers.loopAt.Between?
    case Fetch(n) => s.port.Enabled(P.Fetch(n)) && s.timers.loopAt.Between?
    case Io(step) => S.Enabled(strict, s.port.History(), s.port.Done(), s.io, step) && (step.DispatchIo? ==> s.port.batch != [] && s.timers.loopAt.Between?)
    case Timer(step) => T.Enabled(s.port.History(), s.port.Done(), s.timers, step) && (step.TakeTimer? ==> s.port.batch != [])
      && (step.DestroyBegin? ==> !T.OnLoop(s.timers, step.thread))
    case PostWake => true
    case SkipPacket => s.port.batch != [] && s.timers.loopAt.Between? && (s.port.batch[0].Wake? || s.port.batch[0].Sync?)
  }

  function PostAll(p: P.Port, packets: seq<P.Packet>): P.Port
    ensures PostAll(p, packets).History() == p.History() + packets
    ensures PostAll(p, packets).Done() == p.Done()
  {
    var r := p.(queue := p.queue + packets);
    assert p.dispatched + p.batch + (p.queue + packets) == p.dispatched + p.batch + p.queue + packets;
    r
  }

  ghost predicate Inv(strict: bool, s: Sys)
  {
    && s.port.Ticketed()
    && S.Inv(strict, s.port.History(), s.port.Done(), s.io)
    && T.Inv(s.port.History(), s.port.Done(), s.timers) && s.timers.held.None?
  }

  ghost function Apply(strict: bool, s: Sys, m: Move): Sys
    requires Enabled(strict, s, m)
  {
    match m
    case EnterLoop(thread) => s.(io := s.io.(loopThread := thread), timers := s.timers.(loopThread := thread))
    case Fetch(n) => s.(port := s.port.Apply(P.Fetch(n)))
    case Io(step) =>
      var (io, posts) := S.Next(strict, s.port.History(), s.port.Done(), s.io, step);
      Sys(if step.DispatchIo? then s.port.Apply(P.Take) else PostAll(s.port, posts), io, s.timers)
    case Timer(step) =>
      var (timers, posts) := T.Next(s.port.History(), s.port.Done(), s.timers, step);
      Sys(if step.TakeTimer? then s.port.Apply(P.Take) else PostAll(s.port, posts), s.io, timers)
    case PostWake => s.(port := s.port.Apply(P.Post(P.Wake)))
    case SkipPacket => s.(port := s.port.Apply(P.Take))
  }

  /* ---------------- every reachable state ---------------- */

  lemma EnterKeepsGood(strict: bool, log: seq<P.Packet>, done: nat, io: W.World, thread: nat, w: nat)
    requires w in io.watchers && S.Good(strict, log, done, io, w)
    requires thread > 0 && (io.loopThread == 0 || io.loopThread == thread)
    ensures S.Good(strict, log, done, io.(loopThread := thread), w)
  {
  }

  lemma EnterKeepsIo(strict: bool, log: seq<P.Packet>, done: nat, io: W.World, thread: nat)
    requires S.Inv(strict, log, done, io) && thread > 0 && (io.loopThread == 0 || io.loopThread == thread)
    ensures S.Inv(strict, log, done, io.(loopThread := thread))
  {
    assert S.Anchored(log, done, io.(loopThread := thread));
    forall w <- io.watchers ensures S.Good(strict, log, done, io.(loopThread := thread), w) {
      EnterKeepsGood(strict, log, done, io, thread, w);
    }
  }

  /** The loop takes the packet at the head of its batch. */
  lemma TakesHead(p: P.Port)
    requires p.batch != []
    ensures p.Done() < |p.History()| && p.History()[p.Done()] == p.batch[0]
    ensures p.Apply(P.Take).History() == p.History() && p.Apply(P.Take).Done() == p.Done() + 1
  {
    P.MoveKeepsOrder(p, P.Take);
  }

  predicate TicketedPosts(p: P.Port, posts: seq<P.Packet>)
  {
    |posts| <= 1 && forall x <- posts :: x.Sync? ==> x.ticket == |p.History()|
  }

  lemma PostsKeepTickets(p: P.Port, posts: seq<P.Packet>)
    requires p.Ticketed() && TicketedPosts(p, posts)
    ensures PostAll(p, posts).Ticketed()
  {
  }

  lemma ForeignPostsKeepIo(strict: bool, log: seq<P.Packet>, done: nat, io: W.World, posts: seq<P.Packet>)
    requires S.Inv(strict, log, done, io) && |posts| <= 1 && forall x <- posts :: !x.IoDone?
    ensures S.Inv(strict, log + posts, done, io)
  {
    if posts == [] {
      assert log + posts == log;
    } else {
      assert posts == [posts[0]];
      S.ForeignPacketKeepsInv(strict, log, done, io, posts[0]);
    }
  }

  lemma ForeignPostsKeepTimers(log: seq<P.Packet>, done: nat, timers: T.World, posts: seq<P.Packet>)
    requires T.Inv(log, done, timers) && |posts| <= 1 && forall x <- posts :: !x.TimerFired?
    ensures T.Inv(log + posts, done, timers)
  {
    if posts == [] {
      assert log + posts == log;
    } else {
      assert posts == [posts[0]];
      T.ForeignPacketKeepsInv(log, done, timers, posts[0]);
    }
  }

  lemma IoPosts(strict: bool, p: P.Port, io: W.World, step: S.Step)
    requires S.Enabled(strict, p.History(), p.Done(), io, step) && !step.DispatchIo?
    ensures TicketedPosts(p, S.Next(strict, p.History(), p.Done(), io, step).1)
    ensures forall x <- S.Next(strict, p.History(), p.Done(), io, step).1 :: !x.TimerFired?
  {
  }

  lemma IoKeepsInv(strict: bool, s: Sys, step: S.Step)
    requires Inv(strict, s) && Enabled(strict, s, Io(step))
    ensures Inv(strict, Apply(strict, s, Io(step)))
  {
    var log, done := s.port.History(), s.port.Done();
    S.NextKeepsInv(strict, log, done, s.io, step);
    var posts := S.Next(strict, log, done, s.io, step).1;
    if step.DispatchIo? {
      TakesHead(s.port);
      assert log + posts == log;
      T.ForeignPacketKeepsInv(log, done, s.timers, log[done]);
    } else {
      IoPosts(strict, s.port, s.io, step);
      PostsKeepTickets(s.port, posts);
      ForeignPostsKeepTimers(log, done, s.timers, posts);
    }
  }

  lemma TimerPosts(p: P.Port, timers: T.World, step: T.Step)
    requires T.Enabled(p.History(), p.Done(), timers, step)
    ensures TicketedPosts(p, T.Next(p.History(), p.Done(), timers, step).1)
    ensures forall x <- T.Next(p.History(), p.Done(), timers, step).1 :: !x.IoDone?
    ensures step.TakeTimer? ==> T.Next(p.History(), p.Done(), timers, step).1 == []
  {
  }

  /** The loop thread, destroying no timer, begins to destroy none. */
  lemma NoneIsHeld(log: seq<P.Packet>, done: nat, timers: T.World, step: T.Step)
    requires T.Enabled(log, done, timers, step) && timers.held.None?
    requires step.DestroyBegin? ==> !T.OnLoop(timers, step.thread)
    ensures T.Next(log, done, timers, step).0.held.None?
    ensures step.TakeTimer? ==> done < |log| && log[done].TimerFired?
  {
  }

  lemma TimerKeepsInv(strict: bool, s: Sys, step: T.Step)
    requires Inv(strict, s) && Enabled(strict, s, Timer(step))
    ensures Inv(strict, Apply(strict, s, Timer(step)))
  {
    hide S.Inv, T.Inv, T.Enabled, T.Next;
    NoneIsHeld(s.port.History(), s.port.Done(), s.timers, step);
    var log, done := s.port.History(), s.port.Done();
    T.NextKeepsInv(log, done, s.timers, step);
    TimerPosts(s.port, s.timers, step);
    var posts := T.Next(log, done, s.timers, step).1;
    if step.TakeTimer? {
      TakesHead(s.port);
      assert log + posts == log;
      S.ForeignPacketKeepsInv(strict, log, done, s.io, log[done]);
    } else {
      PostsKeepTickets(s.port, posts);
      ForeignPostsKeepIo(strict, log, done, s.io, posts);
    }
  }

  lemma FetchKeepsInv(strict: bool, s: Sys, n: nat)
    requires Inv(strict, s) && Enabled(strict, s, Fetch(n))
    ensures Inv(strict, Apply(strict, s, Fetch(n)))
  {
    P.MoveKeepsOrder(s.port, P.Fetch(n));
    assert s.port.History() + [] == s.port.History();
  }

  lemma WakeKeepsInv(strict: bool, s: Sys)
    requires Inv(strict, s)
    ensures Inv(strict, s.(port := s.port.Apply(P.Post(P.Wake))))
  {
    P.MoveKeepsOrder(s.port, P.Post(P.Wake));
    S.ForeignPacketKeepsInv(strict, s.port.History(), s.port.Done(), s.io, P.Wake);
    T.ForeignPacketKeepsInv(s.port.History(), s.port.Done(), s.timers, P.Wake);
  }

  lemma SkipKeepsInv(strict: bool, s: Sys)
    requires Inv(strict, s) && s.port.batch != [] && (s.port.batch[0].Wake? || s.port.batch[0].Sync?) && s.timers.loopAt.Between?
    ensures Inv(strict, s.(port := s.port.Apply(P.Take)))
  {
    hide S.Inv, T.Inv;
    TakesHead(s.port);
    S.ForeignPacketKeepsInv(strict, s.port.History(), s.port.Done(), s.io, s.port.batch[0]);
    T.ForeignPacketKeepsInv(s.port.History(), s.port.Done(), s.timers, s.port.batch[0]);
  }

  lemma MoveKeepsInv(strict: bool, s: Sys, m: Move)
    requires Inv(strict, s) && Enabled(strict, s, m)
    ensures Inv(strict, Apply(strict, s, m))
  {
    hide S.Inv, T.Inv, S.Enabled, T.Enabled;
    match m
    case EnterLoop(thread) =>
      EnterKeepsIo(strict, s.port.History(), s.port.Done(), s.io, thread);
      T.EnteringKeepsInv(s.port.History(), s.port.Done(), s.timers, thread);
    case Fetch(n) => FetchKeepsInv(strict, s, n);
    case Io(step) => IoKeepsInv(strict, s, step);
    case Timer(step) => TimerKeepsInv(strict, s, step);
    case PostWake => WakeKeepsInv(strict, s);
    case SkipPacket => SkipKeepsInv(strict, s);
  }
}
