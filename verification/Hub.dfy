/**
 The per-thread event hub: numbered envelopes, a bounded replay ring, and one
 bounded queue per subscriber (src/fastapi_agent_protocol/hub.py), together with
 the delivery loop that drains a subscription (the generator of `_stream` in
 src/fastapi_agent_protocol/router.py).

 The datatypes and functions say what one atomic step does; the classes are
 the mutable objects, proved against those functions.
 */
module Hub {
  import opened Selecting

  const MAX_QUEUE := 4096

  datatype Envelope<+D> = Envelope(no: nat, name: string, namespace: seq<string>, data: D)

  /** The channel of a wire method; the input channel's one event has its own name. */
  function ChannelForMethod(name: string): string {
    if name == "input.requested" then "input" else name
  }

  /** A subscriber's selection; an empty set or sequence selects everything. */
  datatype Filter = Filter(channels: set<string>, namespaces: seq<seq<string>>) {
    predicate SelectsChannel(name: string) {
      channels == {} || ChannelForMethod(name) in channels
    }

    predicate SelectsNamespace(namespace: seq<string>) {
      namespaces == [] || exists i :: 0 <= i < |namespaces| && PrefixSelects(namespaces[i], namespace)
    }

    predicate Selects<D>(e: Envelope<D>) {
      SelectsChannel(e.name) && SelectsNamespace(e.namespace)
    }
  }

  /** An explicitly empty prefix selects root events only. */
  predicate PrefixSelects(prefix: seq<string>, namespace: seq<string>) {
    if prefix == [] then namespace == [] else prefix <= namespace
  }

  /** Any name is its own channel, but for the one event of the input channel. */
  lemma {:induction false} ChannelsSelect<D>(channels: set<string>, e: Envelope<D>)
    ensures Filter(channels, []).Selects(e) <==>
            channels == {} || (if e.name == "input.requested" then "input" in channels else e.name in channels)
  {
  }

  /** A prefix selects what starts with it; the empty one root events; no prefix at all everything. */
  lemma {:induction false} NamespacesSelect<D>(namespaces: seq<seq<string>>, e: Envelope<D>)
    ensures Filter({}, namespaces).Selects(e) <==>
            || namespaces == []
            || ([] in namespaces && e.namespace == [])
            || exists n :: 0 < n <= |e.namespace| && e.namespace[..n] in namespaces
  {
    if i :| 0 <= i < |namespaces| && PrefixSelects(namespaces[i], e.namespace) {
      if namespaces[i] != [] {
        assert e.namespace[..|namespaces[i]|] == namespaces[i];
      }
    }
    if n :| 0 < n <= |e.namespace| && e.namespace[..n] in namespaces {
      var i :| 0 <= i < |namespaces| && namespaces[i] == e.namespace[..n];
      assert PrefixSelects(namespaces[i], e.namespace);
    }
    if [] in namespaces && e.namespace == [] {
      var i :| 0 <= i < |namespaces| && namespaces[i] == [];
      assert PrefixSelects(namespaces[i], e.namespace);
    }
  }

  /** The two halves of a filter restrict independently. */
  lemma {:induction false} BothSelect<D>(filter: Filter, e: Envelope<D>)
    ensures filter.Selects(e) <==>
            Filter(filter.channels, []).Selects(e) && Filter({}, filter.namespaces).Selects(e)
  {
  }

  /** What a subscription is at one moment: its filter, its cursor and its queue. */
  datatype Cursor<D> = Cursor(filter: Filter, lastNo: nat, queue: seq<Envelope<D>>) {
    predicate Matches(e: Envelope<D>) {
      e.no > lastNo && filter.Selects(e)
    }

    /** Fan-out of one envelope: a full queue drops it. */
    function Offer(e: Envelope<D>): Cursor<D> {
      if Matches(e) && |queue| < MAX_QUEUE then this.(queue := queue + [e]) else this
    }

    /** The cursor after a replay pass that matched `matched`. */
    function Advance(matched: seq<Envelope<D>>): Cursor<D> {
      if matched == [] then this else this.(lastNo := matched[|matched| - 1].no)
    }
  }

  /**
   Subscribed before its generator runs, which is then held at the first yield
   until it replays. Leaving the generator unsubscribes; a response that is never
   iterated never gets there.
   */
  datatype Phase = Subscribed | Connecting | Streaming | Closed

  /** One run of the delivery loop: what is still to be replayed and what the client has. */
  datatype Connection<D> = Connection(
    cursor: Cursor<D>, phase: Phase, replaying: seq<Envelope<D>>, delivered: seq<Envelope<D>>)
  {
    function Offer(e: Envelope<D>): Connection<D> {
      if phase == Closed then this else this.(cursor := cursor.Offer(e))
    }

    /** The generator runs up to its first yield. */
    function Open(): Connection<D>
      requires phase == Subscribed
    {
      this.(phase := Connecting)
    }

    function Replay(ring: seq<Envelope<D>>): Connection<D>
      requires phase == Connecting
    {
      var matched := Select(ring, cursor.Matches);
      this.(cursor := cursor.Advance(matched), phase := Streaming, replaying := matched)
    }

    predicate CanSend() { phase == Streaming && replaying != [] }

    function SendReplayed(): Connection<D>
      requires CanSend()
    {
      this.(replaying := replaying[1..], delivered := delivered + [replaying[0]])
    }

    predicate CanTake() { phase == Streaming && replaying == [] && cursor.queue != [] }

    function Take(): Connection<D>
      requires CanTake()
    {
      var e, rest := cursor.queue[0], cursor.queue[1..];
      if cursor.Matches(e)
      then this.(cursor := cursor.(queue := rest, lastNo := e.no), delivered := delivered + [e])
      else this.(cursor := cursor.(queue := rest))
    }

    function Close(): Connection<D>
      requires phase != Subscribed
    {
      this.(phase := Closed)
    }
  }

  /** What a bounded deque of the given length keeps of everything appended to it. */
  function Newest<T>(log: seq<T>, size: nat): (kept: seq<T>)
    ensures |kept| == if |log| <= size then |log| else size
    ensures kept == log[|log| - |kept|..]
  {
    if |log| <= size then log else log[|log| - size..]
  }

  /** Envelopes are numbered 1, 2, 3, ... in publication order. */
  ghost predicate Numbered<D>(log: seq<Envelope<D>>) {
    forall i :: 0 <= i < |log| ==> log[i].no == i + 1
  }

  /** One consumer's mutable view into a hub. */
  class Subscription<D> {
    const channels: set<string>
    const namespaces: seq<seq<string>>
    var queue: seq<Envelope<D>>
    var lastNo: nat

    ghost function View(): Cursor<D>
      reads this
    {
      Cursor(Filter(channels, namespaces), lastNo, queue)
    }

    constructor (channels: set<string>, namespaces: seq<seq<string>>, since: int)
      ensures View() == Cursor(Filter(channels, namespaces), if since > 0 then since else 0, [])
    {
      this.channels, this.namespaces := channels, namespaces;
      queue := [];
      lastNo := if since > 0 then since else 0;
    }

    method Matches(e: Envelope<D>) returns (ok: bool)
      ensures ok == View().Matches(e)
    {
      if e.no <= lastNo {
        return false;
      }
      if channels != {} && ChannelForMethod(e.name) !in channels {
        return false;
      }
      if namespaces != [] {
        for i := 0 to |namespaces|
          invariant forall j :: 0 <= j < i ==> !PrefixSelects(namespaces[j], e.namespace)
        {
          var prefix := namespaces[i];
          if prefix != [] {
            if |prefix| <= |e.namespace| && e.namespace[..|prefix|] == prefix {
              return true;
            }
          } else if e.namespace == [] {
            return true;
          }
        }
        return false;
      }
      return true;
    }

    /** `put_nowait` with a full queue suppressed. */
    method PutNowait(e: Envelope<D>)
      modifies this`queue
      ensures queue == if |old(queue)| < MAX_QUEUE then old(queue) + [e] else old(queue)
    {
      if |queue| < MAX_QUEUE {
        queue := queue + [e];
      }
    }
  }

  class ThreadEventHub<D> {
    const replaySize: nat
    var lastNo: nat
    var buffer: seq<Envelope<D>>
    var subscribers: set<Subscription<D>>
    ghost var log: seq<Envelope<D>>  // everything ever published

    ghost predicate Valid()
      reads this
    {
      && lastNo == |log|
      && Numbered(log)
      && buffer == Newest(log, replaySize)
    }

    constructor (replaySize: nat)
      ensures Valid() && log == [] && subscribers == {} && this.replaySize == replaySize
    {
      this.replaySize := replaySize;
      lastNo, buffer, subscribers, log := 0, [], {}, [];
    }

    method Publish(name: string, namespace: seq<string>, data: D) returns (e: Envelope<D>)
      requires Valid()
      modifies this`lastNo, this`buffer, this`log, subscribers
      ensures Valid()
      ensures e == Envelope(|old(log)| + 1, name, namespace, data)
      ensures log == old(log) + [e]
      ensures forall s <- subscribers :: s.View() == old(s.View()).Offer(e)
    {
      lastNo := lastNo + 1;
      e := Envelope(lastNo, name, namespace, data);
      // a deque with maxlen: appending discards from the other end when full
      buffer := buffer + [e];
      if |buffer| > replaySize {
        buffer := buffer[1..];
      }
      log := log + [e];
      FanOut(e);
    }

    /** Offers an envelope to every subscriber, in no particular order. */
    method FanOut(e: Envelope<D>)
      modifies subscribers
      ensures forall s <- subscribers :: s.View() == old(s.View()).Offer(e)
    {
      var todo := subscribers;
      while todo != {}
        invariant todo <= subscribers
        invariant forall s <- subscribers - todo :: s.View() == old(s.View()).Offer(e)
        invariant forall s <- todo :: s.View() == old(s.View())
        decreases todo
      {
        var s :| s in todo;
        var ok := s.Matches(e);
        if ok {
          s.PutNowait(e);
        }
        todo := todo - {s};
      }
    }

    method Subscribe(channels: set<string>, namespaces: seq<seq<string>>, since: int)
      returns (s: Subscription<D>)
      requires Valid()
      modifies this`subscribers
      ensures Valid()
      ensures fresh(s) && subscribers == old(subscribers) + {s}
      ensures s.View() == Cursor(Filter(channels, namespaces), if since > 0 then since else 0, [])
    {
      s := new Subscription(channels, namespaces, since);
      subscribers := subscribers + {s};
    }

    method Unsubscribe(s: Subscription<D>)
      requires Valid()
      modifies this`subscribers
      ensures Valid() && subscribers == old(subscribers) - {s}
    {
      subscribers := subscribers - {s};
    }

    method Replay(s: Subscription<D>) returns (matched: seq<Envelope<D>>)
      requires Valid()
      modifies s`lastNo
      ensures matched == Select(Newest(log, replaySize), old(s.View()).Matches)
      ensures s.View() == old(s.View()).Advance(matched)
    {
      ghost var cursor := s.View();
      matched := [];
      for i := 0 to |buffer|
        invariant s.View() == cursor
        invariant matched == Select(buffer[..i], cursor.Matches)
      {
        var ok := s.Matches(buffer[i]);
        assert buffer[..i + 1][..i] == buffer[..i];
        if ok {
          matched := matched + [buffer[i]];
        }
      }
      assert buffer[..|buffer|] == buffer;
      if matched != [] {
        s.lastNo := matched[|matched| - 1].no;
      }
    }
  }

  /** The hubs of a process, one per thread, made when first asked for. */
  class HubRegistry<D> {
    const replaySize: nat
    var hubs: map<string, ThreadEventHub<D>>

    ghost predicate Valid()
      reads this, hubs.Values
    {
      && (forall id <- hubs :: hubs[id].Valid() && hubs[id].replaySize == replaySize)
      && (forall id, other :: id in hubs && other in hubs && id != other ==> hubs[id] != hubs[other])
    }

    constructor (replaySize: nat)
      ensures Valid() && hubs == map[] && this.replaySize == replaySize
    {
      this.replaySize := replaySize;
      hubs := map[];
    }

    /** The thread's own hub; one made now is empty, and no other thread's hub is touched or shared. */
    method HubFor(id: string) returns (hub: ThreadEventHub<D>)
      requires Valid()
      modifies this
      ensures Valid() && id in hubs && hub == hubs[id]
      ensures if id in old(hubs) then hubs == old(hubs)
              else fresh(hub) && hub.log == [] && hub.subscribers == {} && hubs == old(hubs)[id := hub]
    {
      if id !in hubs {
        hub := new ThreadEventHub(replaySize);
        hubs := hubs[id := hub];
      }
      hub := hubs[id];
    }
  }

  /** The delivery loop of one streaming response, one method per atomic step. */
  class EventStream<D> {
    const hub: ThreadEventHub<D>
    const subscription: Subscription<D>
    var phase: Phase
    var replaying: seq<Envelope<D>>
    var delivered: seq<Envelope<D>>

    ghost predicate Valid()
      reads this, hub
    {
      && hub.Valid()
      && (subscription in hub.subscribers <==> phase != Closed)
    }

    ghost function View(): Connection<D>
      reads this, subscription
    {
      Connection(subscription.View(), phase, replaying, delivered)
    }

    constructor (hub: ThreadEventHub<D>, channels: set<string>, namespaces: seq<seq<string>>, since: int)
      requires hub.Valid()
      modifies hub`subscribers
      ensures Valid() && this.hub == hub && fresh(subscription)
      ensures hub.subscribers == old(hub.subscribers) + {subscription}
      ensures View() == Connection(
                          Cursor(Filter(channels, namespaces), if since > 0 then since else 0, []),
                          Subscribed, [], [])
    {
      var s := hub.Subscribe(channels, namespaces, since);
      this.hub, subscription := hub, s;
      phase, replaying, delivered := Subscribed, [], [];
    }

    /** The first yield, which flushes the headers. */
    method Open()
      requires Valid() && phase == Subscribed
      modifies this
      ensures Valid() && View() == old(View()).Open()
    {
      phase := Connecting;
    }

    /** The replay pass: one look at the ring, then the matched envelopes are sent one by one. */
    method StartReplay()
      requires Valid() && phase == Connecting
      modifies this, subscription`lastNo
      ensures Valid()
      ensures View() == old(View()).Replay(Newest(hub.log, hub.replaySize))
    {
      replaying := hub.Replay(subscription);
      phase := Streaming;
    }

    method SendReplayed() returns (e: Envelope<D>)
      requires Valid() && phase == Streaming && replaying != []
      modifies this
      ensures Valid()
      ensures View() == old(View()).SendReplayed() && e == old(replaying[0])
    {
      e := replaying[0];
      replaying := replaying[1..];
      delivered := delivered + [e];
    }

    /** One dequeue of the live loop; an envelope the replay already sent is skipped. */
    method Take() returns (sent: bool)
      requires Valid() && phase == Streaming && replaying == [] && subscription.queue != []
      modifies this, subscription
      ensures Valid()
      ensures View() == old(View()).Take()
      ensures sent == old(subscription.View().Matches(subscription.queue[0]))
    {
      var e := subscription.queue[0];
      subscription.queue := subscription.queue[1..];
      sent := subscription.Matches(e);
      if sent {
        subscription.lastNo := e.no;
        delivered := delivered + [e];
      }
    }

    method Close()
      requires Valid() && phase != Subscribed
      modifies this, hub`subscribers
      ensures Valid()
      ensures View() == old(View()).Close()
      ensures hub.subscribers == old(hub.subscribers) - {subscription}
    {
      hub.Unsubscribe(subscription);
      phase := Closed;
    }
  }
}
