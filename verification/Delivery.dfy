/**
 Delivery over every interleaving of publishes, subscribes, replay passes,
 dequeues and disconnects on one hub, by any number of connections. The
 specification is the publication log, filtered; the theorems say exactly which
 envelopes the ring, queue and cursor together deliver.
 */
module Delivery {
  import opened Selecting
  import opened Hub

  type ConnectionId = nat

  /**
   What happened around a connection, written down beside it and read only by
   the theorems: none of these values is taken from the connection's own step.
   */
  datatype Record<D> = Record(
    filter: Filter,
    since: nat,
    joinedAt: nat,      // length of the log when it subscribed
    seen: nat,          // length of the log when it was last subscribed
    refused: set<nat>,  // matching envelopes published while its queue was full
    replayed: bool,     // the replay pass has run, and then:
    evicted: nat,       //   how many envelopes the ring had already discarded
    replayedAt: nat,    //   the length of the log
    superseded: bool)   //   whether the ring held an envelope it wants
  {
    predicate Wanted(e: Envelope<D>) {
      e.no > since && filter.Selects(e)
    }

    predicate Accepted(e: Envelope<D>) {
      Wanted(e) && e.no > joinedAt && e.no !in refused
    }

    /**
     Once replay has run: an envelope still in the ring then is recovered by
     it, a later one is lost exactly when the queue was full, and one already
     evicted survives only in the queue, and only if the replay pass had
     nothing newer to move the cursor past it.
     */
    predicate Lost(e: Envelope<D>) {
      if e.no > evicted then e.no > replayedAt && e.no in refused
      else e.no <= joinedAt || e.no in refused || superseded
    }

    predicate Due(e: Envelope<D>) {
      Wanted(e) && !Lost(e)
    }
  }

  datatype System<D> = System(
    replaySize: nat,
    log: seq<Envelope<D>>,
    ring: seq<Envelope<D>>,
    connections: map<ConnectionId, Connection<D>>,
    records: map<ConnectionId, Record<D>>)

  /** What a connection's own generator may do next. */
  datatype Move = Open | Replay | SendReplayed | Take | Heartbeat | Close

  datatype Step<D> =
    | Publish(name: string, namespace: seq<string>, data: D)
    | Subscribe(id: ConnectionId, filter: Filter, since: int)
    | Advance(id: ConnectionId, move: Move)

  ghost function Empty<D>(replaySize: nat): System<D> {
    System(replaySize, [], [], map[], map[])
  }

  ghost predicate CanMove<D>(c: Connection<D>, move: Move) {
    match move
    case Open => c.phase == Subscribed
    case Replay => c.phase == Connecting
    case SendReplayed => c.CanSend()
    case Take => c.CanTake()
    case Heartbeat => c.phase == Streaming
    case Close => c.phase != Subscribed
  }

  ghost function Moved<D>(c: Connection<D>, move: Move, ring: seq<Envelope<D>>): Connection<D>
    requires CanMove(c, move)
  {
    match move
    case Open => c.Open()
    case Replay => c.Replay(ring)
    case SendReplayed => c.SendReplayed()
    case Take => c.Take()
    case Heartbeat => c
    case Close => c.Close()
  }

  ghost predicate Enabled<D>(s: System<D>, step: Step<D>) {
    match step
    case Publish(_, _, _) => true
    case Subscribe(id, _, _) => id !in s.connections
    case Advance(id, move) => id in s.connections && id in s.records && CanMove(s.connections[id], move)
  }

  ghost predicate Refuses<D>(c: Connection<D>, e: Envelope<D>) {
    c.phase != Closed && c.cursor.Matches(e) && |c.cursor.queue| >= MAX_QUEUE
  }

  ghost function RecordPublish<D>(c: Connection<D>, r: Record<D>, e: Envelope<D>): Record<D> {
    if c.phase == Closed then r
    else r.(seen := e.no, refused := if Refuses(c, e) then r.refused + {e.no} else r.refused)
  }

  ghost function RecordMove<D>(
    log: seq<Envelope<D>>, ring: seq<Envelope<D>>, r: Record<D>, move: Move): Record<D>
  {
    if move != Replay then r
    else r.(replayed := true, replayedAt := |log|,
            evicted := if |log| > |ring| then |log| - |ring| else 0,
            superseded := exists i :: 0 <= i < |ring| && r.Wanted(ring[i]))
  }

  /** A step that is not enabled is not taken. */
  ghost function Next<D>(s: System<D>, step: Step<D>): System<D> {
    if !Enabled(s, step) then s
    else match step
      case Publish(name, namespace, data) =>
        Published(s, Envelope(|s.log| + 1, name, namespace, data))
      case Subscribe(id, filter, since) =>
        var from := if since > 0 then since else 0;
        Touched(s, id, Connection(Cursor(filter, from, []), Subscribed, [], []),
                Record(filter, from, |s.log|, |s.log|, {}, false, 0, 0, false))
      case Advance(id, move) =>
        Touched(s, id, Moved(s.connections[id], move, s.ring), RecordMove(s.log, s.ring, s.records[id], move))
  }

  ghost function Touched<D>(s: System<D>, id: ConnectionId, c: Connection<D>, r: Record<D>): System<D> {
    s.(connections := s.connections[id := c], records := s.records[id := r])
  }

  ghost function Published<D>(s: System<D>, e: Envelope<D>): System<D> {
    s.(log := s.log + [e],
       ring := Newest(s.ring + [e], s.replaySize),
       connections := map id <- s.connections :: s.connections[id].Offer(e),
       records := map id | id in s.records && id in s.connections ::
         RecordPublish(s.connections[id], s.records[id], e))
  }

  ghost function After<D>(s: System<D>, steps: seq<Step<D>>): System<D> {
    if steps == [] then s else Next(After(s, steps[..|steps| - 1]), steps[|steps| - 1])
  }

  /** Delivered, still to be replayed, and queued entries the cursor would let through. */
  ghost function Outstanding<D>(c: Connection<D>): seq<Envelope<D>> {
    c.delivered + c.replaying + Select(c.cursor.queue, c.cursor.Matches)
  }

  // ---------------------------------------------------------------- invariant

  ghost predicate Ascending<D>(es: seq<Envelope<D>>) {
    forall i, j :: 0 <= i < j < |es| ==> es[i].no < es[j].no
  }

  /** The bookkeeping of one connection, apart from which envelopes it holds. */
  ghost predicate Shaped<D>(log: seq<Envelope<D>>, c: Connection<D>, r: Record<D>) {
    && c.cursor.filter == r.filter
    && r.joinedAt <= r.seen <= |log|
    && (c.phase != Closed ==> r.seen == |log|)
    && (c.phase == Subscribed || c.phase == Connecting ==> !r.replayed)
    && (c.phase == Streaming ==> r.replayed)
    && (r.replayed ==> r.joinedAt <= r.replayedAt <= r.seen && r.evicted <= r.replayedAt)
    && (!r.replayed ==> c.cursor.lastNo == r.since)
    && (c.cursor.lastNo == r.since || r.since < c.cursor.lastNo <= r.seen)
    && (forall n <- r.refused :: n <= r.seen)
    && QueueAscending(c.cursor.queue, r.seen)
  }

  ghost predicate QueueAscending<D>(queue: seq<Envelope<D>>, seen: nat) {
    && Ascending(queue)
    && (forall i :: 0 <= i < |queue| ==> queue[i].no <= seen)
  }

  /** Which envelopes it holds, before and after the replay pass. */
  ghost predicate Balanced<D>(log: seq<Envelope<D>>, c: Connection<D>, r: Record<D>) {
    if r.replayed then Outstanding(c) == Select(log, r.Due)
    else
      && c.replaying == [] && c.delivered == []
      && c.cursor.queue == Select(log, r.Accepted)
  }

  ghost predicate Accounted<D>(log: seq<Envelope<D>>, c: Connection<D>, r: Record<D>) {
    Shaped(log, c, r) && Balanced(log[..r.seen], c, r)
  }

  ghost predicate Inv<D>(s: System<D>) {
    && Numbered(s.log)
    && s.ring == Newest(s.log, s.replaySize)
    && s.connections.Keys == s.records.Keys
    && forall id <- s.connections :: Accounted(s.log, s.connections[id], s.records[id])
  }

  lemma {:induction false} SelectSnoc<T>(xs: seq<T>, x: T, p: T -> bool)
    ensures Select(xs + [x], p) == Select(xs, p) + if p(x) then [x] else []
  {
    assert (xs + [x])[..|xs|] == xs;
  }

  lemma {:induction false} OfferShaped<D>(log: seq<Envelope<D>>, c: Connection<D>, r: Record<D>, e: Envelope<D>)
    requires Shaped(log, c, r) && e.no == |log| + 1
    ensures Shaped(log + [e], c.Offer(e), RecordPublish(c, r, e))
  {
  }

  /** A new last envelope becomes outstanding exactly when it is accepted. */
  lemma {:induction false} OfferOutstanding<D>(c: Connection<D>, e: Envelope<D>)
    requires c.phase != Closed
    ensures Outstanding(c.Offer(e)) ==
            Outstanding(c) + if c.cursor.Matches(e) && !Refuses(c, e) then [e] else []
  {
    var q := c.cursor.queue;
    SelectSnoc(q, e, c.cursor.Matches);
    SelectAgree(q + [e], c.cursor.Matches, c.Offer(e).cursor.Matches);
    SelectAgree(q, c.cursor.Matches, c.Offer(e).cursor.Matches);
  }

  lemma {:induction false} RefusalIsNew<D>(log: seq<Envelope<D>>, c: Connection<D>, r: Record<D>, e: Envelope<D>)
    requires Numbered(log) && Shaped(log, c, r) && e.no == |log| + 1 && c.phase != Closed
    ensures var r' := RecordPublish(c, r, e);
      && Select(log, r.Due) == Select(log, r'.Due)
      && Select(log, r.Accepted) == Select(log, r'.Accepted)
      && (r.replayed ==> (r'.Due(e) <==> c.cursor.Matches(e) && !Refuses(c, e)))
      && (r'.Accepted(e) <==> c.cursor.Matches(e) && !Refuses(c, e))
  {
    var r' := RecordPublish(c, r, e);
    SelectAgree(log, r.Due, r'.Due);
    SelectAgree(log, r.Accepted, r'.Accepted);
  }

  lemma {:induction false} OfferBalanced<D>(log: seq<Envelope<D>>, c: Connection<D>, r: Record<D>, e: Envelope<D>)
    requires Numbered(log) && Shaped(log, c, r) && Balanced(log, c, r)
    requires e.no == |log| + 1 && c.phase != Closed
    ensures Balanced(log + [e], c.Offer(e), RecordPublish(c, r, e))
  {
    var r' := RecordPublish(c, r, e);
    RefusalIsNew(log, c, r, e);
    SelectSnoc(log, e, r'.Due);
    SelectSnoc(log, e, r'.Accepted);
    OfferOutstanding(c, e);
  }

  lemma {:induction false} PublishAccounted<D>(log: seq<Envelope<D>>, c: Connection<D>, r: Record<D>, e: Envelope<D>)
    requires Numbered(log) && Accounted(log, c, r) && e.no == |log| + 1
    ensures Accounted(log + [e], c.Offer(e), RecordPublish(c, r, e))
  {
    OfferShaped(log, c, r, e);
    if c.phase == Closed {
      assert (log + [e])[..r.seen] == log[..r.seen];
    } else {
      assert log[..r.seen] == log && (log + [e])[..|log| + 1] == log + [e];
      OfferBalanced(log, c, r, e);
    }
  }

  /** The last selected envelope is the newest selected one. */
  lemma {:induction false} LastSelected<D>(es: seq<Envelope<D>>, p: Envelope<D> -> bool, k: nat)
    requires Ascending(es) && k < |es| && p(es[k])
    ensures Select(es, p) != [] && es[k].no <= Select(es, p)[|Select(es, p)| - 1].no
    ensures Select(es, p)[|Select(es, p)| - 1] in es
  {
    var init, last := es[..|es| - 1], es[|es| - 1];
    if !p(last) {
      LastSelected(init, p, k);
    }
  }

  /** An envelope's number says where in the log it stands. */
  lemma {:induction false} PlaceOf<D>(log: seq<Envelope<D>>, i: nat, e: Envelope<D>)
    requires Numbered(log) && i <= |log| && e in log[i..]
    ensures i < e.no <= |log| && log[e.no - 1] == e
  {
    var k :| 0 <= k < |log| - i && log[i..][k] == e;
    assert log[i + k] == e;
  }

  lemma {:induction false} NewestMatched<D>(log: seq<Envelope<D>>, i: nat, p: Envelope<D> -> bool, k: nat)
    requires Numbered(log) && i <= k < |log| && p(log[k])
    ensures var m := Select(log[i..], p); m != [] && i < m[|m| - 1].no <= |log| && k < m[|m| - 1].no
  {
    assert log[i..][k - i] == log[k];
    LastSelected(log[i..], p, k - i);
    PlaceOf(log, i, Select(log[i..], p)[|Select(log[i..], p)| - 1]);
  }

  /** With nothing wanted in the ring, the queue is the only copy left of what is due. */
  lemma {:induction false} QueueIsDue<D>(log: seq<Envelope<D>>, r: Record<D>, r': Record<D>)
    requires Numbered(log) && r' == r.(replayed := true, evicted := r'.evicted, replayedAt := |log|, superseded := false)
    requires r'.evicted <= |log| && forall i :: r'.evicted <= i < |log| ==> !r.Wanted(log[i])
    ensures Select(log, r.Accepted) == Select(log, r'.Due)
  {
    SelectAgree(log, r.Accepted, r'.Due);
  }

  /** With something wanted in the ring, exactly the wanted part of the ring is due... */
  lemma {:induction false} RingIsDue<D>(log: seq<Envelope<D>>, r: Record<D>, r': Record<D>)
    requires Numbered(log) && r' == r.(replayed := true, evicted := r'.evicted, replayedAt := |log|, superseded := true)
    requires r'.evicted <= |log|
    ensures Select(log[r'.evicted..], r.Wanted) == Select(log, r'.Due)
  {
    var gone, ring := log[..r'.evicted], log[r'.evicted..];
    assert gone + ring == log;
    SelectNone(gone, r'.Due);
    SelectAgree(ring, r.Wanted, r'.Due);
    SelectConcat(gone, ring, r'.Due);
  }

  /** ... and the replay pass leaves nothing of the queue. */
  lemma {:induction false} QueueIsPassed<D>(log: seq<Envelope<D>>, r: Record<D>, cursor: Cursor<D>, evicted: nat, k: nat)
    requires Numbered(log) && evicted <= k < |log| && r.Wanted(log[k])
    requires Select(log[evicted..], r.Wanted) != []
    requires cursor.lastNo == Select(log[evicted..], r.Wanted)[|Select(log[evicted..], r.Wanted)| - 1].no
    ensures Select(Select(log, r.Accepted), cursor.Matches) == []
  {
    var queue := Select(log, r.Accepted);
    SelectSound(log, r.Accepted);
    forall i | 0 <= i < |queue| ensures !cursor.Matches(queue[i]) {
      var e := queue[i];
      PlaceOf(log, 0, e);
      NewestMatched(log, evicted, r.Wanted, if e.no > evicted then e.no - 1 else k);
    }
    SelectNone(queue, cursor.Matches);
  }

  lemma {:induction false} ReplayHit<D>(log: seq<Envelope<D>>, c: Connection<D>, r: Record<D>, r': Record<D>, k: nat)
    requires Numbered(log) && Shaped(log, c, r) && Balanced(log, c, r) && c.phase == Connecting
    requires r' == r.(replayed := true, evicted := r'.evicted, replayedAt := |log|, superseded := true)
    requires r'.evicted <= k < |log| && r.Wanted(log[k])
    ensures Shaped(log, c.Replay(log[r'.evicted..]), r') && Balanced(log, c.Replay(log[r'.evicted..]), r')
  {
    var ring := log[r'.evicted..];
    SelectAgree(ring, c.cursor.Matches, r.Wanted);
    NewestMatched(log, r'.evicted, r.Wanted, k);
    assert Shaped(log, c.Replay(ring), r');
    HitBalanced(log, c, r, r', k);
  }

  lemma {:induction false} HitBalanced<D>(log: seq<Envelope<D>>, c: Connection<D>, r: Record<D>, r': Record<D>, k: nat)
    requires Numbered(log) && Balanced(log, c, r) && c.phase == Connecting && !r.replayed
    requires r' == r.(replayed := true, evicted := r'.evicted, replayedAt := |log|, superseded := true)
    requires r'.evicted <= k < |log| && r.Wanted(log[k])
    requires Select(log[r'.evicted..], c.cursor.Matches) == Select(log[r'.evicted..], r.Wanted) != []
    ensures Balanced(log, c.Replay(log[r'.evicted..]), r')
  {
    RingIsDue(log, r, r');
    QueueIsPassed(log, r, c.Replay(log[r'.evicted..]).cursor, r'.evicted, k);
  }

  lemma {:induction false} ReplayMiss<D>(log: seq<Envelope<D>>, c: Connection<D>, r: Record<D>, r': Record<D>)
    requires Numbered(log) && Shaped(log, c, r) && Balanced(log, c, r) && c.phase == Connecting
    requires r' == r.(replayed := true, evicted := r'.evicted, replayedAt := |log|, superseded := false)
    requires r'.evicted <= |log| && forall k :: r'.evicted <= k < |log| ==> !r.Wanted(log[k])
    ensures Shaped(log, c.Replay(log[r'.evicted..]), r') && Balanced(log, c.Replay(log[r'.evicted..]), r')
  {
    SelectNone(log[r'.evicted..], c.cursor.Matches);
    SelectSound(log, r.Accepted);
    SelectAll(c.cursor.queue, c.cursor.Matches);
    QueueIsDue(log, r, r');
  }

  lemma {:induction false} ReplayAccounted<D>(log: seq<Envelope<D>>, evicted: nat, c: Connection<D>, r: Record<D>)
    requires Numbered(log) && Shaped(log, c, r) && Balanced(log, c, r) && c.phase == Connecting
    requires evicted <= |log|
    ensures var ring := log[evicted..]; var r' := RecordMove(log, ring, r, Replay);
            Shaped(log, c.Replay(ring), r') && Balanced(log, c.Replay(ring), r')
  {
    var ring := log[evicted..];
    var r' := RecordMove(log, ring, r, Replay);
    if k :| 0 <= k < |ring| && r.Wanted(ring[k]) {
      ReplayHit(log, c, r, r', evicted + k);
    } else {
      assert forall k :: evicted <= k < |log| ==> log[k] == ring[k - evicted];
      ReplayMiss(log, c, r, r');
    }
  }

  lemma {:induction false} SendOutstanding<D>(c: Connection<D>)
    requires c.CanSend()
    ensures Outstanding(c.SendReplayed()) == Outstanding(c)
  {
    assert c.delivered + c.replaying == c.SendReplayed().delivered + c.SendReplayed().replaying;
  }

  /** A dequeue delivers the head or drops a copy the cursor has already passed. */
  lemma {:induction false} TakeOutstanding<D>(c: Connection<D>)
    requires c.CanTake() && Ascending(c.cursor.queue)
    ensures Outstanding(c.Take()) == Outstanding(c)
  {
    var e, rest := c.cursor.queue[0], c.cursor.queue[1..];
    assert c.cursor.queue == [e] + rest;
    SelectCons(e, rest, c.cursor.Matches);
    SelectAgree(rest, c.cursor.Matches, c.Take().cursor.Matches);
  }

  lemma {:induction false} TakeShaped<D>(log: seq<Envelope<D>>, c: Connection<D>, r: Record<D>)
    requires Shaped(log, c, r) && c.CanTake()
    ensures Shaped(log, c.Take(), r)
  {
  }

  /** A move of one connection keeps its account. */
  lemma {:induction false} MoveAccounted<D>(log: seq<Envelope<D>>, evicted: nat, c: Connection<D>, r: Record<D>, move: Move)
    requires Numbered(log) && Accounted(log, c, r) && CanMove(c, move) && evicted <= |log|
    ensures Accounted(log, Moved(c, move, log[evicted..]), RecordMove(log, log[evicted..], r, move))
  {
    match move
    case Open =>
    case Replay =>
      assert log[..r.seen] == log;
      ReplayAccounted(log, evicted, c, r);
    case SendReplayed => SendOutstanding(c);
    case Take =>
      TakeOutstanding(c);
      TakeShaped(log, c, r);
    case Heartbeat =>
    case Close =>
  }

  lemma {:induction false} NewAccounted<D>(log: seq<Envelope<D>>, filter: Filter, since: nat)
    requires Numbered(log)
    ensures Accounted(log, Connection(Cursor(filter, since, []), Subscribed, [], []),
                      Record(filter, since, |log|, |log|, {}, false, 0, 0, false))
  {
    SelectNone(log[..|log|], Record<D>.Record(filter, since, |log|, |log|, {}, false, 0, 0, false).Accepted);
  }

  lemma {:induction false} PublishedInv<D>(s: System<D>, e: Envelope<D>)
    requires Inv(s) && e.no == |s.log| + 1
    ensures Inv(Published(s, e))
  {
    forall id <- s.connections
      ensures Accounted(s.log + [e], s.connections[id].Offer(e), RecordPublish(s.connections[id], s.records[id], e))
    {
      PublishAccounted(s.log, s.connections[id], s.records[id], e);
    }
  }

  lemma {:induction false} TouchedInv<D>(s: System<D>, id: ConnectionId, c: Connection<D>, r: Record<D>)
    requires Inv(s) && Accounted(s.log, c, r)
    ensures Inv(Touched(s, id, c, r))
  {
  }

  lemma {:induction false} AccountOf<D>(s: System<D>, id: ConnectionId)
    requires Inv(s) && id in s.connections
    ensures id in s.records && Accounted(s.log, s.connections[id], s.records[id])
    ensures Numbered(s.log) && |s.ring| <= |s.log| && s.ring == s.log[|s.log| - |s.ring|..]
  {
  }

  lemma {:induction false} AdvanceInv<D>(s: System<D>, id: ConnectionId, move: Move)
    requires Inv(s) && Enabled(s, Advance(id, move))
    ensures Inv(Touched(s, id, Moved(s.connections[id], move, s.ring),
                        RecordMove(s.log, s.ring, s.records[id], move)))
  {
    AccountOf(s, id);
    MoveAccounted(s.log, |s.log| - |s.ring|, s.connections[id], s.records[id], move);
    TouchedInv(s, id, Moved(s.connections[id], move, s.ring), RecordMove(s.log, s.ring, s.records[id], move));
  }

  lemma {:induction false} SubscribeInv<D>(s: System<D>, id: ConnectionId, filter: Filter, since: int)
    requires Inv(s) && Enabled(s, Subscribe(id, filter, since))
    ensures Inv(Next(s, Subscribe(id, filter, since)))
  {
    var from := if since > 0 then since else 0;
    NewAccounted(s.log, filter, from);
    TouchedInv(s, id, Connection(Cursor(filter, from, []), Subscribed, [], []),
               Record(filter, from, |s.log|, |s.log|, {}, false, 0, 0, false));
  }

  /** Every step keeps every connection's account. */
  lemma {:induction false} NextInv<D>(s: System<D>, step: Step<D>)
    requires Inv(s)
    ensures Inv(Next(s, step))
  {
    if Enabled(s, step) {
      match step
      case Publish(name, namespace, data) =>
        PublishedInv(s, Envelope(|s.log| + 1, name, namespace, data));
      case Subscribe(id, filter, since) => SubscribeInv(s, id, filter, since);
      case Advance(id, move) => AdvanceInv(s, id, move);
    }
  }

  lemma {:induction false} Reachable<D>(replaySize: nat, steps: seq<Step<D>>)
    ensures Inv(After(Empty(replaySize), steps))
  {
    if steps != [] {
      Reachable(replaySize, steps[..|steps| - 1]);
      NextInv(After(Empty(replaySize), steps[..|steps| - 1]), steps[|steps| - 1]);
    }
  }
}
