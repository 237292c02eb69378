/** Who owns a descriptor number: the one specification that both record tables implement.  It is
    written twice, as a machine over a map and as a condition on the history, and the two agree. */
module Ownership {

  datatype Event = Closed(fd: int) | Registered(fd: int, watcher: nat) | Unregistered(watcher: nat) | Nothing

  type Owners = map<int, nat>

  /** The map without the entries that name w. */
  function Drop<K>(m: map<K, nat>, w: nat): map<K, nat>
  {
    map k | k in m && m[k] != w :: m[k]
  }

  /** A watcher is registered once at a time, and on a number that nobody owns. */
  predicate Legal(m: Owners, e: Event)
  {
    e.Registered? ==> e.fd !in m && forall fd <- m :: m[fd] != e.watcher
  }

  function Next(m: Owners, e: Event): Owners
  {
    match e
    case Closed(fd) => m - {fd}
    case Registered(fd, w) => m[fd := w]
    case Unregistered(w) => Drop(m, w)
    case Nothing => m
  }

  function After(events: seq<Event>): Owners
  {
    if events == [] then map[] else Next(After(events[..|events| - 1]), events[|events| - 1])
  }

  ghost predicate Lawful(events: seq<Event>)
  {
    forall i :: 0 <= i < |events| ==> Legal(After(events[..i]), events[i])
  }

  /** Watcher w was registered on fd; since then fd has not been closed, nor w unregistered. */
  ghost predicate Standing(events: seq<Event>, fd: int, w: nat)
  {
    exists i :: 0 <= i < |events| && events[i] == Registered(fd, w)
      && forall j :: i < j < |events| ==> events[j] != Closed(fd) && events[j] != Unregistered(w)
  }

  lemma StandingStep(events: seq<Event>, e: Event, fd: int, w: nat)
    ensures Standing(events + [e], fd, w) <==>
            e == Registered(fd, w) || (Standing(events, fd, w) && e != Closed(fd) && e != Unregistered(w))
  {
    var es := events + [e];
    if Standing(es, fd, w) && e != Registered(fd, w) {
      var i :| 0 <= i < |es| && es[i] == Registered(fd, w) && forall j :: i < j < |es| ==> es[j] != Closed(fd) && es[j] != Unregistered(w);
      assert i < |events| && events[i] == Registered(fd, w);
      forall j | i < j < |events| ensures events[j] != Closed(fd) && events[j] != Unregistered(w) {
        assert es[j] == events[j];
      }
      assert es[|events|] == e;
    }
    if Standing(events, fd, w) && e != Closed(fd) && e != Unregistered(w) {
      var i :| 0 <= i < |events| && events[i] == Registered(fd, w) && forall j :: i < j < |events| ==> events[j] != Closed(fd) && events[j] != Unregistered(w);
      assert es[i] == Registered(fd, w);
    }
    if e == Registered(fd, w) {
      assert es[|events|] == e;
    }
  }

  lemma NextMeaning(m: Owners, e: Event, fd: int, w: nat)
    requires Legal(m, e)
    ensures fd in Next(m, e) && Next(m, e)[fd] == w <==>
            e == Registered(fd, w) || (fd in m && m[fd] == w && e != Closed(fd) && e != Unregistered(w))
  {
  }

  /** The owners are exactly the registrations that still stand. */
  lemma {:induction false} OwnersAreStanding(events: seq<Event>, fd: int, w: nat)
    requires Lawful(events)
    ensures fd in After(events) && After(events)[fd] == w <==> Standing(events, fd, w)
  {
    if events != [] {
      var init, e := events[..|events| - 1], events[|events| - 1];
      hide Next, Legal;
      assert events == init + [e];
      assert forall i :: 0 <= i < |init| ==> init[..i] == events[..i] && init[i] == events[i];
      assert Lawful(init) && Legal(After(init), e);
      hide Lawful, Standing;
      OwnersAreStanding(init, fd, w);
      StandingStep(init, e, fd, w);
      NextMeaning(After(init), e, fd, w);
    }
  }

  /** A watcher owns at most one number at a time. */
  lemma {:induction false} OneNumberEach(events: seq<Event>, fd: int, fd': int)
    requires Lawful(events) && fd in After(events) && fd' in After(events) && After(events)[fd] == After(events)[fd']
    ensures fd == fd'
  {
    if events != [] {
      var init, e := events[..|events| - 1], events[|events| - 1];
      assert forall i :: 0 <= i < |init| ==> init[..i] == events[..i];
      assert Legal(After(init), e);
      if fd in After(init) && fd' in After(init) && After(init)[fd] == After(init)[fd'] {
        OneNumberEach(init, fd, fd');
      }
    }
  }
}
