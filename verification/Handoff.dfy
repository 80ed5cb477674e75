/**
 What the delivery system promises its clients: which envelopes are delivered,
 exactly which are lost, and that reconnecting is invisible.
 */
module Handoff {
  import opened Selecting
  import opened Hub
  import opened Delivery

  ghost predicate Connected<D>(s: System<D>, id: ConnectionId) {
    id in s.connections && id in s.records
  }

  /**
   Exact loss, with no assumption: in every reachable state, once replay has
   run, what a client has, is being replayed and is still queued for it is the
   log up to the moment it was last subscribed, less what it did not ask for
   and less exactly what `Record.Lost` says.
   */
  lemma {:induction false} ExactLoss<D>(replaySize: nat, steps: seq<Step<D>>, id: ConnectionId)
    requires Connected(After(Empty(replaySize), steps), id)
    requires After(Empty(replaySize), steps).records[id].replayed
    ensures var s := After(Empty(replaySize), steps);
      && s.records[id].seen <= |s.log|
      && (s.connections[id].phase != Closed ==> s.records[id].seen == |s.log|)
      && Outstanding(s.connections[id]) == Select(s.log[..s.records[id].seen], s.records[id].Due)
  {
    Reachable(replaySize, steps);
  }

  /** Whatever was asked for and is neither delivered nor still waiting was evicted before replay, or refused. */
  lemma {:induction false} NothingElseIsLost<D>(replaySize: nat, steps: seq<Step<D>>, id: ConnectionId, i: nat)
    requires Connected(After(Empty(replaySize), steps), id)
    requires var s := After(Empty(replaySize), steps);
      && s.records[id].replayed && i < s.records[id].seen && i < |s.log| && s.records[id].Wanted(s.log[i])
      && s.log[i] !in Outstanding(s.connections[id])
    ensures var s := After(Empty(replaySize), steps);
      s.log[i].no <= s.records[id].evicted || s.log[i].no in s.records[id].refused
  {
    ExactLoss(replaySize, steps, id);
    var s := After(Empty(replaySize), steps);
    var heard := s.log[..s.records[id].seen];
    assert heard[i] == s.log[i];
    if s.records[id].Due(s.log[i]) {
      SelectKeeps(heard, s.records[id].Due, s.log[i]);
    }
  }

  /**
   Queued and yet lost: with room for one envelope in the ring and a queue never
   near full, the first of two envelopes published before the replay pass is
   never delivered, although it is queued, because replay moves the cursor past it.
   */
  lemma {:induction false} QueuedYetLost<D>(a: D, b: D)
    ensures var steps := [Subscribe(0, Filter({}, []), 0), Advance(0, Open), Publish("values", [], a), Publish("values", [], b), Advance(0, Replay)];
      var s := After(Empty<D>(1), steps);
      && Connected(s, 0) && |s.connections[0].cursor.queue| == 2
      && s.connections[0].cursor.queue[0] == Envelope(1, "values", [], a)
      && Outstanding(s.connections[0]) == [Envelope(2, "values", [], b)]
  {
    var steps := [Subscribe(0, Filter({}, []), 0), Advance(0, Open), Publish("values", [], a), Publish("values", [], b), Advance(0, Replay)];
    var s1 := Next(Next(Empty<D>(1), steps[0]), steps[1]);
    SubscribedAndOpen(Empty<D>(1), Filter({}, []));
    FiveSteps(Empty<D>(1), steps);
    LosesFirst(s1, a, b);
  }

  lemma {:induction false} LosesFirst<D>(s: System<D>, a: D, b: D)
    requires Holding(s, [], [], Connection(Cursor(Filter({}, []), 0, []), Connecting, [], []))
    ensures var s' := Next(Next(Next(s, Publish("values", [], a)), Publish("values", [], b)), Advance(0, Replay));
      && Connected(s', 0) && |s'.connections[0].cursor.queue| == 2
      && s'.connections[0].cursor.queue[0] == Envelope(1, "values", [], a)
      && Outstanding(s'.connections[0]) == [Envelope(2, "values", [], b)]
  {
    BothQueued(s, s.connections[0], a, b);
    var s3 := Next(Next(s, Publish("values", [], a)), Publish("values", [], b));
    ReplayMoves(s3);
    ReplaySkips(s3.connections[0], Envelope(1, "values", [], a), Envelope(2, "values", [], b));
  }

  lemma {:induction false} SubscribedAndOpen<D>(s: System<D>, filter: Filter)
    requires 0 !in s.connections
    ensures var s' := Next(Next(s, Subscribe(0, filter, 0)), Advance(0, Open));
      && Connected(s', 0) && s'.connections[0] == Connection(Cursor(filter, 0, []), Connecting, [], [])
      && s'.log == s.log && s'.ring == s.ring && s'.replaySize == s.replaySize
  {
    var s1 := Next(s, Subscribe(0, filter, 0));
    assert s1.connections[0] == Connection(Cursor(filter, 0, []), Subscribed, [], []);
  }

  lemma {:induction false} NewestOne<T>(kept: seq<T>, x: T)
    requires |kept| <= 1
    ensures Newest(kept + [x], 1) == [x]
  {
  }

  /** A hub with room for one envelope in its ring, and what connection 0 has queued. */
  ghost predicate Holding<D>(s: System<D>, log: seq<Envelope<D>>, ring: seq<Envelope<D>>, c: Connection<D>) {
    && Connected(s, 0) && s.replaySize == 1 && s.log == log && s.ring == ring
    && s.connections[0] == c && c.phase == Connecting
  }

  lemma {:induction false} HoldsNext<D>(s: System<D>, log: seq<Envelope<D>>, ring: seq<Envelope<D>>, c: Connection<D>, data: D)
    requires Holding(s, log, ring, c) && |ring| <= 1
    ensures var e := Envelope(|log| + 1, "values", [], data);
      Holding(Next(s, Publish("values", [], data)), log + [e], [e], c.Offer(e))
  {
    PublishReaches(s, "values", data);
    NewestOne(ring, Envelope(|log| + 1, "values", [], data));
  }

  lemma {:induction false} BothQueued<D>(s: System<D>, c: Connection<D>, a: D, b: D)
    requires Holding(s, [], [], c) && c == Connection(Cursor(Filter({}, []), 0, []), Connecting, [], [])
    ensures var first, second := Envelope(1, "values", [], a), Envelope(2, "values", [], b);
      Holding(Next(Next(s, Publish("values", [], a)), Publish("values", [], b)), [first, second], [second],
              Connection(Cursor(Filter({}, []), 0, [first, second]), Connecting, [], []))
  {
    var first, second := Envelope(1, "values", [], a), Envelope(2, "values", [], b);
    HoldsNext(s, [], [], c, a);
    assert [] + [first] == [first];
    HoldsNext(Next(s, Publish("values", [], a)), [first], [first], c.Offer(first), b);
    assert [first] + [second] == [first, second];
    TwoOffers(first, second);
  }

  lemma {:induction false} ReplayMoves<D>(s: System<D>)
    requires Connected(s, 0) && s.connections[0].phase == Connecting
    ensures var s' := Next(s, Advance(0, Replay));
      Connected(s', 0) && s'.connections[0] == s.connections[0].Replay(s.ring)
  {
  }

  lemma {:induction false} PublishReaches<D>(s: System<D>, name: string, data: D)
    requires Connected(s, 0) && s.connections[0].phase == Connecting
    ensures var e := Envelope(|s.log| + 1, name, [], data); var s' := Next(s, Publish(name, [], data));
      && Connected(s', 0) && s'.connections[0] == s.connections[0].Offer(e)
      && s'.log == s.log + [e] && s'.replaySize == s.replaySize && s'.ring == Newest(s.ring + [e], s.replaySize)
  {
  }

  lemma {:induction false} TwoOffers<D>(first: Envelope<D>, second: Envelope<D>)
    requires first.no == 1 && second.no == 2
    ensures var c := Connection(Cursor(Filter({}, []), 0, []), Connecting, [], []);
      c.Offer(first).Offer(second) == c.(cursor := c.cursor.(queue := [first, second]))
  {
    assert [] + [first] == [first] && [first] + [second] == [first, second];
  }

  lemma {:induction false} AfterPrefix<D>(s: System<D>, steps: seq<Step<D>>, k: nat)
    requires k < |steps|
    ensures After(s, steps[..k + 1]) == Next(After(s, steps[..k]), steps[k])
  {
    assert steps[..k + 1][..k] == steps[..k];
  }

  lemma {:induction false} FiveSteps<D>(s: System<D>, steps: seq<Step<D>>)
    requires |steps| == 5
    ensures After(s, steps) == Next(Next(Next(Next(Next(s, steps[0]), steps[1]), steps[2]), steps[3]), steps[4])
  {
    AfterPrefix(s, steps, 0);
    AfterPrefix(s, steps, 1);
    AfterPrefix(s, steps, 2);
    AfterPrefix(s, steps, 3);
    AfterPrefix(s, steps, 4);
    assert steps[..5] == steps && steps[..0] == [];
  }

  lemma {:induction false} ReplaySkips<D>(c: Connection<D>, first: Envelope<D>, second: Envelope<D>)
    requires c == Connection(Cursor(Filter({}, []), 0, [first, second]), Connecting, [], [])
    requires first.no == 1 && second.no == 2
    ensures Outstanding(c.Replay([second])) == [second] && c.Replay([second]).cursor.queue == [first, second]
  {
    SelectAll([second], c.cursor.Matches);
    SelectNone([first, second], c.Replay([second]).cursor.Matches);
  }

  lemma {:induction false} SelectAscending<D>(es: seq<Envelope<D>>, p: Envelope<D> -> bool)
    requires Ascending(es)
    ensures Ascending(Select(es, p))
  {
    if es != [] {
      SelectAscending(es[..|es| - 1], p);
      SelectSound(es[..|es| - 1], p);
    }
  }

  /** Nothing is delivered twice, out of order, unasked for, or from outside the log. */
  lemma {:induction false} DeliveredInOrder<D>(replaySize: nat, steps: seq<Step<D>>, id: ConnectionId)
    requires Connected(After(Empty(replaySize), steps), id)
    ensures var s := After(Empty(replaySize), steps);
      && Ascending(s.connections[id].delivered)
      && forall i :: 0 <= i < |s.connections[id].delivered| ==>
           s.connections[id].delivered[i] in s.log && s.records[id].Wanted(s.connections[id].delivered[i])
  {
    var s := After(Empty(replaySize), steps);
    Reachable(replaySize, steps);
    var c, r := s.connections[id], s.records[id];
    if r.replayed {
      var kept := Select(s.log[..r.seen], r.Due);
      SelectAscending(s.log[..r.seen], r.Due);
      SelectSound(s.log[..r.seen], r.Due);
      assert forall i :: 0 <= i < |c.delivered| ==> c.delivered[i] == kept[i];
    }
  }

  // ------------------------------------------- the records mean what they say

  lemma {:induction false} AfterConcat<D>(s: System<D>, xs: seq<Step<D>>, ys: seq<Step<D>>)
    ensures After(s, xs + ys) == After(After(s, xs), ys)
  {
    if ys == [] {
      assert xs + ys == xs;
    } else {
      AfterConcat(s, xs, ys[..|ys| - 1]);
      assert (xs + ys)[..|xs + ys| - 1] == xs + ys[..|ys| - 1];
    }
  }

  /** What a record says about the past no later step changes. */
  ghost predicate Extends<D>(r: Record<D>, r': Record<D>, past: nat) {
    && r'.filter == r.filter && r'.since == r.since && r'.joinedAt == r.joinedAt
    && (r.replayed ==>
          && r'.replayed && r'.evicted == r.evicted
          && r'.replayedAt == r.replayedAt && r'.superseded == r.superseded)
    && (forall n: nat :: n <= past ==> (n in r'.refused <==> n in r.refused))
  }

  lemma {:induction false} ShapeOf<D>(s: System<D>, id: ConnectionId)
    requires Inv(s) && Connected(s, id)
    ensures Shaped(s.log, s.connections[id], s.records[id])
  {
  }

  lemma {:induction false} NextExtends<D>(s: System<D>, step: Step<D>, id: ConnectionId)
    requires Connected(s, id) && Shaped(s.log, s.connections[id], s.records[id])
    ensures Connected(Next(s, step), id) && |s.log| <= |Next(s, step).log|
    ensures Extends(s.records[id], Next(s, step).records[id], |s.log|)
  {
    if Enabled(s, step) && step.Advance? && step.id == id {
      assert Next(s, step).records[id] == RecordMove(s.log, s.ring, s.records[id], step.move);
    }
  }

  lemma {:induction false} AfterExtends<D>(s: System<D>, steps: seq<Step<D>>, id: ConnectionId)
    requires Inv(s) && Connected(s, id)
    ensures Inv(After(s, steps)) && Connected(After(s, steps), id) && |s.log| <= |After(s, steps).log|
    ensures Extends(s.records[id], After(s, steps).records[id], |s.log|)
  {
    if steps != [] {
      AfterExtends(s, steps[..|steps| - 1], id);
      ShapeOf(After(s, steps[..|steps| - 1]), id);
      NextExtends(After(s, steps[..|steps| - 1]), steps[|steps| - 1], id);
      NextInv(After(s, steps[..|steps| - 1]), steps[|steps| - 1]);
    }
  }

  /** The state after one step between two runs, and what every later record keeps of it. */
  lemma {:induction false} Midway<D>(replaySize: nat, before: seq<Step<D>>, step: Step<D>, after: seq<Step<D>>, id: ConnectionId)
    returns (s: System<D>, s': System<D>)
    requires Connected(Next(After(Empty(replaySize), before), step), id)
    ensures s == After(Empty(replaySize), before) && s' == After(Empty(replaySize), before + [step] + after)
    ensures Connected(s', id) && Extends(Next(s, step).records[id], s'.records[id], |Next(s, step).log|)
    ensures s.replaySize == replaySize && s.ring == Newest(s.log, replaySize)
    ensures s.connections.Keys == s.records.Keys
    ensures id in s.records ==> forall n <- s.records[id].refused :: n <= |s.log|
  {
    s, s' := After(Empty(replaySize), before), After(Empty(replaySize), before + [step] + after);
    Reachable(replaySize, before);
    SameSize(Empty<D>(replaySize), before);
    NextInv(s, step);
    assert (before + [step])[..|before|] == before;
    AfterConcat(Empty(replaySize), before + [step], after);
    AfterExtends(Next(s, step), after, id);
    if id in s.records {
      ShapeOf(s, id);
    }
  }

  /** An envelope counts as refused exactly when it was published while the queue was full. */
  lemma {:induction false} RefusedMeansFull<D>(
    replaySize: nat, before: seq<Step<D>>, publish: Step<D>, after: seq<Step<D>>, id: ConnectionId)
    requires Connected(After(Empty(replaySize), before), id) && publish.Publish?
    ensures var s := After(Empty(replaySize), before);
      var e := Envelope(|s.log| + 1, publish.name, publish.namespace, publish.data);
      var s' := After(Empty(replaySize), before + [publish] + after);
      && Connected(s', id)
      && (e.no in s'.records[id].refused <==>
            && s.connections[id].phase != Closed && s.connections[id].cursor.Matches(e)
            && |s.connections[id].cursor.queue| >= 4096)
  {
    var s, s' := Midway(replaySize, before, publish, after, id);
  }

  /** A connection's record has the filter it asked for and the cursor it asked for, never below zero. */
  lemma {:induction false} SubscribedAsAsked<D>(
    replaySize: nat, before: seq<Step<D>>, id: ConnectionId, filter: Filter, since: int, after: seq<Step<D>>)
    requires id !in After(Empty<D>(replaySize), before).connections
    ensures var s' := After(Empty<D>(replaySize), before + [Subscribe(id, filter, since)] + after);
      && Connected(s', id) && s'.records[id].filter == filter
      && s'.records[id].since == (if since <= 0 then 0 else since)
      && s'.records[id].joinedAt == |After(Empty<D>(replaySize), before).log|
  {
    var s, s' := Midway(replaySize, before, Subscribe(id, filter, since), after, id);
  }

  /** Leaving the generator ends the connection: no later envelope reaches it. */
  lemma {:induction false} LeavingEnds<D>(s: System<D>, id: ConnectionId, name: string, namespace: seq<string>, data: D)
    requires Connected(s, id) && s.connections[id].phase != Subscribed
    ensures var left := Next(s, Advance(id, Close));
      && Connected(left, id) && left.connections[id].phase == Closed
      && left.connections[id].delivered == s.connections[id].delivered
      && Connected(Next(left, Publish(name, namespace, data)), id)
      && Next(left, Publish(name, namespace, data)).connections[id] == left.connections[id]
  {
  }

  /** The replay part of a record is the state of the ring when the replay pass ran. */
  lemma {:induction false} ReplayedMeansRing<D>(replaySize: nat, before: seq<Step<D>>, after: seq<Step<D>>, id: ConnectionId)
    requires Enabled(After(Empty(replaySize), before), Advance(id, Replay))
    ensures var s := After(Empty(replaySize), before);
      var s' := After(Empty(replaySize), before + [Advance(id, Replay)] + after);
      && Connected(s', id) && s'.records[id].replayed
      && s'.records[id].replayedAt == |s.log|
      && s'.records[id].evicted == (if |s.log| <= replaySize then 0 else |s.log| - replaySize)
      && (s'.records[id].superseded <==>
            exists i :: 0 <= i < |s.ring| && s'.records[id].Wanted(s.ring[i]))
  {
    var s, s' := Midway(replaySize, before, Advance(id, Replay), after, id);
    var r := s.records[id];
    assert forall i :: 0 <= i < |s.ring| ==> s'.records[id].Wanted(s.ring[i]) == r.Wanted(s.ring[i]);
  }

  lemma {:induction false} SameSize<D>(s: System<D>, steps: seq<Step<D>>)
    ensures After(s, steps).replaySize == s.replaySize
  {
    if steps != [] {
      SameSize(s, steps[..|steps| - 1]);
    }
  }

  // ------------------------------------------------------- exactly-once handoff

  ghost predicate AlwaysRoom<D>(replaySize: nat, steps: seq<Step<D>>, id: ConnectionId) {
    forall k :: 0 <= k <= |steps| ==> HasRoom(After(Empty(replaySize), steps[..k]), id)
  }

  ghost predicate HasRoom<D>(s: System<D>, id: ConnectionId) {
    id in s.connections ==> |s.connections[id].cursor.queue| < MAX_QUEUE
  }

  lemma {:induction false} RefusedOnlyWhenFull<D>(s: System<D>, step: Step<D>, id: ConnectionId)
    requires s.connections.Keys == s.records.Keys && HasRoom(s, id)
    requires Connected(s, id) ==> s.records[id].refused == {}
    ensures Connected(Next(s, step), id) ==> Next(s, step).records[id].refused == {}
  {
  }

  lemma {:induction false} NothingRefused<D>(replaySize: nat, steps: seq<Step<D>>, id: ConnectionId)
    requires AlwaysRoom(replaySize, steps, id)
    ensures var s := After(Empty(replaySize), steps); Connected(s, id) ==> s.records[id].refused == {}
  {
    if steps != [] {
      var init := steps[..|steps| - 1];
      assert forall k :: 0 <= k <= |init| ==> init[..k] == steps[..k];
      NothingRefused(replaySize, init, id);
      SameKeys(replaySize, init);
      assert HasRoom(After(Empty(replaySize), steps[..|init|]), id);
      RefusedOnlyWhenFull(After(Empty(replaySize), init), steps[|init|], id);
    }
  }

  lemma {:induction false} SameKeys<D>(replaySize: nat, steps: seq<Step<D>>)
    ensures After(Empty(replaySize), steps).connections.Keys == After(Empty(replaySize), steps).records.Keys
  {
    Reachable(replaySize, steps);
  }

  /**
   Exactly-once handoff: if the queue was never full and the ring still held
   everything after `since` when replay ran, nothing is missing and nothing is
   extra, whatever the interleaving.
   */
  lemma {:induction false} ExactlyOnce<D>(replaySize: nat, steps: seq<Step<D>>, id: ConnectionId)
    requires AlwaysRoom(replaySize, steps, id)
    requires Connected(After(Empty(replaySize), steps), id)
    requires var r := After(Empty(replaySize), steps).records[id]; r.replayed && r.evicted <= r.since
    ensures var s := After(Empty(replaySize), steps);
      && s.records[id].seen <= |s.log|
      && Outstanding(s.connections[id]) == Select(s.log[..s.records[id].seen], s.records[id].Wanted)
  {
    ExactLoss(replaySize, steps, id);
    NothingRefused(replaySize, steps, id);
    var s := After(Empty(replaySize), steps);
    SelectAgree(s.log[..s.records[id].seen], s.records[id].Due, s.records[id].Wanted);
  }

  // ------------------------------------------------------------- reconnecting

  /** No envelope the connection asked for was lost to it. */
  ghost predicate Lossless<D>(s: System<D>, id: ConnectionId)
    requires Connected(s, id)
  {
    && s.records[id].replayed
    && forall i :: 0 <= i < s.records[id].seen && i < |s.log| && s.records[id].Wanted(s.log[i]) ==>
         !s.records[id].Lost(s.log[i])
  }

  /** A prefix of a selection is the selection up to its last member. */
  lemma {:induction false} SelectPrefix<D>(log: seq<Envelope<D>>, p: Envelope<D> -> bool, head: seq<Envelope<D>>, rest: seq<Envelope<D>>)
    requires Numbered(log) && Select(log, p) == head + rest && head != []
    ensures head[|head| - 1].no <= |log|
    ensures head == Select(log[..head[|head| - 1].no], p)
  {
    if log == [] {
      assert false;
    } else {
      var init, last := log[..|log| - 1], log[|log| - 1];
      if rest == [] && p(last) {
        assert head + rest == head && log[..|log|] == log;
      } else {
        if p(last) {
          assert (head + rest)[..|head + rest| - 1] == head + rest[..|rest| - 1];
          SelectPrefix(init, p, head, rest[..|rest| - 1]);
        } else {
          SelectPrefix(init, p, head, rest);
        }
        assert log[..head[|head| - 1].no] == init[..head[|head| - 1].no];
      }
    }
  }

  lemma {:induction false} LosslessIsWanted<D>(s: System<D>, id: ConnectionId)
    requires Inv(s) && Connected(s, id) && Lossless(s, id)
    ensures Outstanding(s.connections[id]) == Select(s.log[..s.records[id].seen], s.records[id].Wanted)
  {
    SelectAgree(s.log[..s.records[id].seen], s.records[id].Due, s.records[id].Wanted);
  }

  /** Splitting the wanted part of the log at an envelope the client already has. */
  lemma {:induction false} WantedFrom<D>(log: seq<Envelope<D>>, r: Record<D>, r': Record<D>, k: nat)
    requires Numbered(log) && r.filter == r'.filter && r.since <= k == r'.since && k <= |log|
    ensures Select(log, r.Wanted) == Select(log[..k], r.Wanted) + Select(log, r'.Wanted)
  {
    var head, tail := log[..k], log[k..];
    assert log == head + tail;
    assert forall i :: 0 <= i < |tail| ==> tail[i].no == k + i + 1;
    SelectNone(head, r'.Wanted);
    SelectAgree(tail, r.Wanted, r'.Wanted);
    SelectConcat(head, tail, r.Wanted);
    SelectConcat(head, tail, r'.Wanted);
  }

  /** `second` picks up where the client of `first` stopped reading. */
  ghost predicate Resumes<D>(s: System<D>, first: ConnectionId, second: ConnectionId) {
    && Connected(s, first) && Connected(s, second)
    && Lossless(s, first) && Lossless(s, second)
    && s.records[first].filter == s.records[second].filter
    && s.connections[second].phase != Closed
    && var read := s.connections[first].delivered;
       s.records[second].since == if read == [] then s.records[first].since else read[|read| - 1].no
  }

  /**
   Reconnecting is invisible: what a client read on one connection, followed by
   a new connection with the same filter and `since` at its last envelope, is
   what one uninterrupted connection gives, when neither loses an envelope.
   */
  lemma {:induction false} ReconnectTransparent<D>(
    replaySize: nat, steps: seq<Step<D>>, first: ConnectionId, second: ConnectionId)
    requires Resumes(After(Empty(replaySize), steps), first, second)
    ensures var s := After(Empty(replaySize), steps);
      s.connections[first].delivered + Outstanding(s.connections[second]) == Select(s.log, s.records[first].Wanted)
  {
    var s := After(Empty(replaySize), steps);
    WholeView(replaySize, steps, first);
    WholeView(replaySize, steps, second);
    assert s.log[..s.records[second].seen] == s.log;
    Resumed(s.log, s.connections[first], s.records[first], s.records[second]);
  }

  /** The client of `second` goes on where that of `first` stopped reading. */
  ghost predicate GoesOn<D>(s: System<D>, first: ConnectionId, second: ConnectionId) {
    && Connected(s, first) && Connected(s, second) && s.records[first].filter == s.records[second].filter
    && var read := s.connections[first].delivered;
       s.records[second].since == if read == [] then s.records[first].since else read[|read| - 1].no
  }

  /** Connections in a row, each going on where the one before stopped, none losing an envelope. */
  ghost predicate Chained<D>(s: System<D>, ids: seq<ConnectionId>) {
    && ids != []
    && (forall i :: 0 <= i < |ids| ==> Connected(s, ids[i]) && Lossless(s, ids[i]))
    && (forall i :: 0 <= i < |ids| - 1 ==> GoesOn(s, ids[i], ids[i + 1]))
    && s.connections[ids[|ids| - 1]].phase != Closed
  }

  /** What the client read on each, and has or will have on the last. */
  ghost function ReadThrough<D>(s: System<D>, ids: seq<ConnectionId>): seq<Envelope<D>>
    requires |ids| > 0 && forall i :: 0 <= i < |ids| ==> Connected(s, ids[i])
  {
    assert Connected(s, ids[0]);
    if |ids| == 1 then Outstanding(s.connections[ids[0]])
    else s.connections[ids[0]].delivered + ReadThrough(s, ids[1..])
  }

  /** However often a client reconnects, it reads what one uninterrupted connection gives. */
  lemma {:induction false} ManyReconnects<D>(replaySize: nat, steps: seq<Step<D>>, ids: seq<ConnectionId>)
    requires Chained(After(Empty(replaySize), steps), ids)
    ensures var s := After(Empty(replaySize), steps);
      ReadThrough(s, ids) == Select(s.log, s.records[ids[0]].Wanted)
  {
    var s := After(Empty(replaySize), steps);
    WholeView(replaySize, steps, ids[0]);
    if |ids| == 1 {
      assert s.log[..s.records[ids[0]].seen] == s.log;
    } else {
      RestChained(s, ids);
      ManyReconnects(replaySize, steps, ids[1..]);
      assert GoesOn(s, ids[0], ids[1]);
      Resumed(s.log, s.connections[ids[0]], s.records[ids[0]], s.records[ids[1]]);
    }
  }

  lemma {:induction false} RestChained<D>(s: System<D>, ids: seq<ConnectionId>)
    requires Chained(s, ids) && |ids| > 1
    ensures Chained(s, ids[1..])
  {
    var rest := ids[1..];
    forall i | 0 <= i < |rest| - 1 ensures GoesOn(s, rest[i], rest[i + 1]) {
      assert GoesOn(s, ids[i + 1], ids[i + 2]);
    }
  }

  lemma {:induction false} WholeView<D>(replaySize: nat, steps: seq<Step<D>>, id: ConnectionId)
    requires Connected(After(Empty(replaySize), steps), id) && Lossless(After(Empty(replaySize), steps), id)
    ensures var s := After(Empty(replaySize), steps); var r := s.records[id];
      && Numbered(s.log) && r.seen <= |s.log| && (s.connections[id].phase != Closed ==> r.seen == |s.log|)
      && Outstanding(s.connections[id]) == Select(s.log[..r.seen], r.Wanted)
  {
    Reachable(replaySize, steps);
    ShapeOf(After(Empty(replaySize), steps), id);
    LosslessIsWanted(After(Empty(replaySize), steps), id);
  }

  lemma {:induction false} Resumed<D>(log: seq<Envelope<D>>, c: Connection<D>, r: Record<D>, r': Record<D>)
    requires Numbered(log) && r.seen <= |log| && r.filter == r'.filter
    requires Outstanding(c) == Select(log[..r.seen], r.Wanted)
    requires r'.since == if c.delivered == [] then r.since else c.delivered[|c.delivered| - 1].no
    ensures c.delivered + Select(log, r'.Wanted) == Select(log, r.Wanted)
  {
    if c.delivered == [] {
      SelectAgree(log, r.Wanted, r'.Wanted);
    } else {
      ReadIsPrefix(log, c, r);
      WantedFrom(log, r, r', c.delivered[|c.delivered| - 1].no);
    }
  }

  lemma {:induction false} ReadIsPrefix<D>(log: seq<Envelope<D>>, c: Connection<D>, r: Record<D>)
    requires Numbered(log) && r.seen <= |log| && c.delivered != []
    requires Outstanding(c) == Select(log[..r.seen], r.Wanted)
    ensures var read := c.delivered; var k := read[|read| - 1].no;
      && r.since <= k <= |log| && read == Select(log[..k], r.Wanted)
  {
    var rest := c.replaying + Select(c.cursor.queue, c.cursor.Matches);
    assert Outstanding(c) == c.delivered + rest;
    UpToLast(log, r.seen, r, c.delivered, rest);
  }

  lemma {:induction false} UpToLast<D>(log: seq<Envelope<D>>, seen: nat, r: Record<D>, read: seq<Envelope<D>>, rest: seq<Envelope<D>>)
    requires Numbered(log) && seen <= |log| && read != []
    requires Select(log[..seen], r.Wanted) == read + rest
    ensures var k := read[|read| - 1].no; r.since <= k <= |log| && read == Select(log[..k], r.Wanted)
  {
    SelectPrefix(log[..seen], r.Wanted, read, rest);
    var k := read[|read| - 1].no;
    assert log[..seen][..k] == log[..k];
    SelectSound(log[..seen], r.Wanted);
    assert (read + rest)[|read| - 1] == read[|read| - 1];
  }

  // ------------------------------------------------------------- catching up

  /** The connection's own steps until nothing is left to send or take. */
  ghost function Draining<D>(c: Connection<D>, id: ConnectionId): seq<Step<D>>
    decreases |c.replaying| + |c.cursor.queue|
  {
    if c.CanSend() then [Advance(id, SendReplayed)] + Draining(c.SendReplayed(), id)
    else if c.CanTake() then [Advance(id, Take)] + Draining(c.Take(), id)
    else []
  }

  lemma {:induction false} FirstThen<D>(s: System<D>, first: Step<D>, rest: seq<Step<D>>)
    ensures After(s, [first] + rest) == After(Next(s, first), rest)
  {
    AfterConcat(s, [first], rest);
    assert [first][..0] == [];
    assert After(s, [first]) == Next(After(s, []), first);
  }

  /** One connection changed, by itself. */
  ghost predicate OnlyMoved<D>(s: System<D>, s': System<D>, id: ConnectionId, c: Connection<D>) {
    && s'.log == s.log && s'.ring == s.ring && s'.replaySize == s.replaySize && s'.records == s.records
    && s'.connections == s.connections[id := c]
  }

  lemma {:induction false} OwnMove<D>(s: System<D>, id: ConnectionId, move: Move)
    requires Connected(s, id) && CanMove(s.connections[id], move) && move != Replay
    ensures OnlyMoved(s, Next(s, Advance(id, move)), id, Moved(s.connections[id], move, s.ring))
  {
    assert s.records[id := s.records[id]] == s.records;
  }

  /** A connection with nothing left but what it delivered. */
  ghost function Emptied<D>(c: Connection<D>): Connection<D>
    decreases |c.replaying| + |c.cursor.queue|
  {
    if c.CanSend() then Emptied(c.SendReplayed()) else if c.CanTake() then Emptied(c.Take()) else c
  }

  /** Sending and taking until both are empty delivers exactly what was outstanding. */
  lemma {:induction false} EmptiedDelivers<D>(c: Connection<D>, bound: nat)
    requires c.phase == Streaming && QueueAscending(c.cursor.queue, bound)
    ensures var e := Emptied(c);
      && e.phase == Streaming && e.replaying == [] && e.cursor.queue == []
      && e.delivered == Outstanding(c)
    decreases |c.replaying| + |c.cursor.queue|
  {
    if c.CanSend() {
      SendOutstanding(c);
      EmptiedDelivers(c.SendReplayed(), bound);
    } else if c.CanTake() {
      TakeOutstanding(c);
      EmptiedDelivers(c.Take(), bound);
    } else {
      assert c.delivered + [] + [] == c.delivered;
    }
  }

  lemma {:induction false} DrainingEmpties<D>(s: System<D>, id: ConnectionId)
    requires Connected(s, id)
    ensures OnlyMoved(s, After(s, Draining(s.connections[id], id)), id, Emptied(s.connections[id]))
    decreases |s.connections[id].replaying| + |s.connections[id].cursor.queue|
  {
    var c := s.connections[id];
    if c.CanSend() {
      OwnMove(s, id, SendReplayed);
      DrainStep(s, id, SendReplayed, c.SendReplayed());
    } else if c.CanTake() {
      OwnMove(s, id, Take);
      DrainStep(s, id, Take, c.Take());
    } else {
      assert s.connections[id := c] == s.connections;
    }
  }

  lemma {:induction false} DrainStep<D>(s: System<D>, id: ConnectionId, move: Move, c: Connection<D>)
    requires Connected(s, id) && OnlyMoved(s, Next(s, Advance(id, move)), id, c)
    requires |c.replaying| + |c.cursor.queue| < |s.connections[id].replaying| + |s.connections[id].cursor.queue|
    ensures OnlyMoved(s, After(s, [Advance(id, move)] + Draining(c, id)), id, Emptied(c))
    decreases |s.connections[id].replaying| + |s.connections[id].cursor.queue|, 0
  {
    var s1 := Next(s, Advance(id, move));
    FirstThen(s, Advance(id, move), Draining(c, id));
    DrainingEmpties(s1, id);
    assert s.connections[id := c][id := Emptied(c)] == s.connections[id := Emptied(c)];
  }

  /**
   What is waiting arrives: from any reachable state a connection that has
   replayed and was not left can send and take, while nothing else moves, until
   it has delivered all that was outstanding and nothing is left.
   */
  lemma {:induction false} WaitingArrives<D>(replaySize: nat, steps: seq<Step<D>>, id: ConnectionId)
    requires Connected(After(Empty(replaySize), steps), id)
    requires After(Empty(replaySize), steps).connections[id].phase == Streaming
    ensures var s := After(Empty(replaySize), steps);
      var s' := After(Empty(replaySize), steps + Draining(s.connections[id], id));
      && OnlyMoved(s, s', id, Emptied(s.connections[id]))
      && Emptied(s.connections[id]).delivered == Outstanding(s.connections[id])
      && Emptied(s.connections[id]).replaying == [] && Emptied(s.connections[id]).cursor.queue == []
      && Emptied(s.connections[id]).phase == Streaming
  {
    var s := After(Empty(replaySize), steps);
    Reachable(replaySize, steps);
    ShapeOf(s, id);
    EmptiedDelivers(s.connections[id], s.records[id].seen);
    DrainingEmpties(s, id);
    AfterConcat(Empty(replaySize), steps, Draining(s.connections[id], id));
  }
}
