/** The completion port of the IOCP backend: one FIFO of completion packets, consumed in batches.

    GetQueuedCompletionStatusEx moves packets from the kernel queue into the loop's `events` array
    (the batch), and the loop then dispatches them one by one.  `dispatched` is a history variable. */
module IocpPort {

  /** The lpOverlapped pointer of an I/O completion: either the OVERLAPPED embedded in a watcher_data
      block of the backend, or one that the caller owns (a caller-issued write). */
  datatype Overlapped = Embedded(block: nat) | Callers(id: nat)

  /** A completion packet, by completion key: 0 (wake-up), PD_IOCP_SYNC_KEY, PD_IOCP_TIMER_KEY, or the
      pd_watcher_t pointer.  A sync record is identified by the position at which it was posted. */
  datatype Packet =
    | Wake
    | Sync(ticket: nat)
    | TimerFired(timer: nat)
    | IoDone(watcher: nat, overlapped: Overlapped, bytes: nat)

  datatype Move = Post(packet: Packet) | Fetch(count: nat) | Take

  datatype Port = Port(dispatched: seq<Packet>, batch: seq<Packet>, queue: seq<Packet>) {

    /** Every packet ever posted, in posting order; the first Done() of them have been dispatched. */
    function History(): seq<Packet> { dispatched + batch + queue }

    function Done(): nat { |dispatched| }

    predicate Enabled(m: Move) {
      match m
      case Post(_) => true
      case Fetch(n) => batch == [] && 0 < n <= |queue|
      case Take => batch != []
    }

    function Apply(m: Move): Port
      requires Enabled(m)
    {
      match m
      case Post(x) => this.(queue := queue + [x])
      case Fetch(n) => this.(batch := queue[..n], queue := queue[n..])
      case Take => this.(dispatched := dispatched + [batch[0]], batch := batch[1..])
    }

    /** A drain-sync record sits at the position its ticket names, so tickets are unique. */
    ghost predicate Ticketed() {
      forall i :: 0 <= i < |History()| && History()[i].Sync? ==> History()[i].ticket == i
    }
  }

  const EMPTY := Port([], [], [])

  /** What each move does to the posting order: only a post extends it, and only a take advances. */
  lemma MoveKeepsOrder(p: Port, m: Move)
    requires p.Enabled(m)
    ensures p.Apply(m).History() == p.History() + (if m.Post? then [m.packet] else [])
    ensures p.Apply(m).Done() == p.Done() + (if m.Take? then 1 else 0)
    ensures m.Take? ==> p.Done() < |p.History()| && p.History()[p.Done()] == p.batch[0]
  {
    match m
    case Post(x) =>
      assert p.dispatched + p.batch + (p.queue + [x]) == p.dispatched + p.batch + p.queue + [x];
    case Fetch(n) =>
      assert p.dispatched + p.queue[..n] + p.queue[n..] == p.dispatched + p.batch + p.queue;
    case Take =>
      assert p.batch == [p.batch[0]] + p.batch[1..];
      assert (p.dispatched + [p.batch[0]]) + p.batch[1..] + p.queue == p.dispatched + p.batch + p.queue;
  }

  /** A sequence of ports, each reached from the one before by one move; every sync is ticketed. */
  ghost predicate IsRun(run: seq<Port>, moves: seq<Move>) {
    && |run| == |moves| + 1
    && forall i :: 0 <= i < |moves| ==>
         && run[i].Enabled(moves[i])
         && run[i + 1] == run[i].Apply(moves[i])
         && (moves[i].Post? && moves[i].packet.Sync? ==> moves[i].packet.ticket == |run[i].History()|)
  }

  lemma {:induction false} RunKeepsOrder(run: seq<Port>, moves: seq<Move>, i: nat, j: nat)
    requires IsRun(run, moves) && i <= j < |run|
    ensures run[i].History() <= run[j].History()
    ensures run[i].Done() <= run[j].Done()
    ensures run[i].Ticketed() ==> run[j].Ticketed()
    decreases j
  {
    if i < j {
      RunKeepsOrder(run, moves, i, j - 1);
      MoveKeepsOrder(run[j - 1], moves[j - 1]);
    }
  }

  /** The drain barrier.  When iocp_drain_sync finds its sync record consumed, every packet that was
      in the batch or in the queue when the record was posted has been dispatched, in posting order,
      whatever batch sizes the loop used and whatever other threads posted meanwhile. */
  lemma DrainBarrier(run: seq<Port>, moves: seq<Move>, i: nat, j: nat)
    requires IsRun(run, moves) && i < j < |run| && run[i].Ticketed()
    requires moves[i] == Post(Sync(|run[i].History()|))
    requires Sync(|run[i].History()|) in run[j].dispatched
    ensures run[i].History() <= run[j].dispatched
  {
    RunKeepsOrder(run, moves, i, j);
    var t := |run[i].History()|;
    var k :| 0 <= k < |run[j].dispatched| && run[j].dispatched[k] == Sync(t);
    assert run[j].History()[k] == Sync(t);
    assert k == t;
    assert run[j].dispatched == run[j].History()[..run[j].Done()];
  }

  /** The number of dispatches still needed before the sync record with this ticket is consumed. */
  function Distance(p: Port, ticket: nat): nat
  {
    if p.Done() <= ticket then ticket + 1 - p.Done() else 0
  }

  /** The drain's measure: a dispatch brings a pending sync record exactly one place closer, and no
      post or fetch moves it; and while one is pending the loop always has a fetch or a take to do. */
  lemma DrainMeasure(p: Port, m: Move, ticket: nat)
    requires p.Enabled(m) && p.Done() <= ticket < |p.History()|
    ensures Distance(p.Apply(m), ticket) == Distance(p, ticket) - (if m.Take? then 1 else 0)
    ensures p.Enabled(Take) || p.Enabled(Fetch(1))
    ensures Distance(p.Apply(m), ticket) == 0 ==> p.History()[ticket] in p.Apply(m).dispatched
  {
    MoveKeepsOrder(p, m);
    if p.batch == [] {
      assert p.queue != [];
    }
  }
}
