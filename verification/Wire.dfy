/**
 The last stretch: envelopes printed as server-sent events, cut into chunks in
 any way, and read by the incremental parser. JSON is any printer without line
 breaks and any reader that inverts it.
 */
module Wire {
  import opened Options
  import opened Json
  import opened Hub
  import Delivery
  import Handoff
  import opened Runs
  import opened Execution
  import opened EndToEnd
  import Sse

  const DIGITS := "0123456789"

  function Decimal(n: nat): string {
    (if n < 10 then "" else Decimal(n / 10)) + [DIGITS[n % 10]]
  }

  lemma {:induction false} DecimalIsOneLine(n: nat)
    ensures Sse.OneLine(Decimal(n))
  {
    if n >= 10 { DecimalIsOneLine(n / 10); }
  }

  function ReadDecimal(text: string): int {
    if text == "" then 0 else 10 * ReadDecimal(text[..|text| - 1]) + (text[|text| - 1] as int - '0' as int)
  }

  /** The number of an envelope can be read from its id line. */
  lemma {:induction false} DecimalReads(n: nat)
    ensures ReadDecimal(Decimal(n)) == n
  {
    if n >= 10 { DecimalReads(n / 10); }
    var before := if n < 10 then "" else Decimal(n / 10);
    assert Decimal(n)[..|before|] == before;
    assert DIGITS[n % 10] as int == '0' as int + n % 10;
  }

  /** `sse_block`. */
  function ItemOf(e: Envelope<Event>, dumps: Envelope<Event> -> string): Sse.Item {
    Sse.Event(e.name, dumps(e), Decimal(e.no))
  }

  /** An envelope's block has its method, its JSON and its number, a line each. */
  lemma {:induction false} EnvelopeLines(e: Envelope<Event>, dumps: Envelope<Event> -> string)
    requires Sse.OneLine(e.name) && Sse.OneLine(dumps(e))
    ensures Sse.Lines(Sse.BlockText(ItemOf(e, dumps))) == ["event: " + e.name, "data: " + dumps(e), "id: " + Decimal(e.no)]
    ensures ReadDecimal(Decimal(e.no)) == e.no
  {
    DecimalIsOneLine(e.no);
    DecimalReads(e.no);
    Sse.BlockLines(e.name, dumps(e), Decimal(e.no));
  }

  /** The envelopes as blocks, in order, with comments anywhere between them. */
  predicate Sends(items: seq<Sse.Item>, es: seq<Envelope<Event>>, dumps: Envelope<Event> -> string) {
    if items == [] then es == []
    else if items[0].Comment? then Sse.OneLine(items[0].text) && Sends(items[1..], es, dumps)
    else es != [] && items[0] == ItemOf(es[0], dumps) && Sends(items[1..], es[1..], dumps)
  }

  /** The JSON of these envelopes has no line breaks and reads back. */
  ghost predicate Faithful(es: seq<Envelope<Event>>, dumps: Envelope<Event> -> string, parse: string -> Option<Envelope<Event>>) {
    forall i :: 0 <= i < |es| ==> Sse.OneLine(dumps(es[i])) && parse(dumps(es[i])) == Some(es[i])
  }

  lemma {:induction false} KeptCons<E>(parse: string -> Option<E>, data: string, rest: seq<string>)
    requires parse(data).Some?
    ensures Sse.Kept(parse, [data] + rest) == [parse(data).value] + Sse.Kept(parse, rest)
  {
    Sse.KeptConcat(parse, [data], rest);
    assert [data][..0] == [] && Sse.Kept(parse, [data]) == [] + [parse(data).value];
  }

  lemma {:induction false} MethodIsOneLine(e: Event)
    ensures Sse.OneLine(MethodOf(e))
  {
  }

  lemma {:induction false} BlockReads(
    e: Envelope<Event>, rest: seq<string>, dumps: Envelope<Event> -> string, parse: string -> Option<Envelope<Event>>)
    requires Sse.OneLine(dumps(e)) && parse(dumps(e)) == Some(e) && e.name == MethodOf(e.data)
    ensures Sse.Printable(ItemOf(e, dumps))
    ensures Sse.Kept(parse, [dumps(e)] + rest) == [e] + Sse.Kept(parse, rest)
  {
    MethodIsOneLine(e.data);
    DecimalIsOneLine(e.no);
    KeptCons(parse, dumps(e), rest);
  }

  lemma {:induction false} RestIsFaithful(
    es: seq<Envelope<Event>>, dumps: Envelope<Event> -> string, parse: string -> Option<Envelope<Event>>)
    requires es != [] && Faithful(es, dumps, parse) && WellNamed(es)
    ensures Faithful(es[1..], dumps, parse) && WellNamed(es[1..])
    ensures Sse.OneLine(dumps(es[0])) && parse(dumps(es[0])) == Some(es[0]) && es[0].name == MethodOf(es[0].data)
  {
  }

  lemma {:induction false} MorePrintable(items: seq<Sse.Item>)
    requires items != [] && Sse.Printable(items[0])
    requires forall i :: 0 <= i < |items[1..]| ==> Sse.Printable(items[1..][i])
    ensures forall i :: 0 <= i < |items| ==> Sse.Printable(items[i])
  {
    forall i | 0 < i < |items| ensures Sse.Printable(items[i]) {
      assert items[1..][i - 1] == items[i];
    }
  }

  lemma {:induction false} SendsPrintable(
    items: seq<Sse.Item>, es: seq<Envelope<Event>>, dumps: Envelope<Event> -> string, parse: string -> Option<Envelope<Event>>)
    requires Sends(items, es, dumps) && Faithful(es, dumps, parse) && WellNamed(es)
    ensures forall i :: 0 <= i < |items| ==> Sse.Printable(items[i])
  {
    if items != [] {
      if items[0].Comment? {
        SendsPrintable(items[1..], es, dumps, parse);
      } else {
        RestIsFaithful(es, dumps, parse);
        SendsPrintable(items[1..], es[1..], dumps, parse);
        BlockReads(es[0], [], dumps, parse);
      }
      MorePrintable(items);
    }
  }

  lemma {:induction false} DataOfRest(items: seq<Sse.Item>)
    requires items != []
    ensures Sse.DataOf(items) ==
            if items[0].Comment? then Sse.DataOf(items[1..]) else [items[0].data] + Sse.DataOf(items[1..])
  {
    assert [] + Sse.DataOf(items[1..]) == Sse.DataOf(items[1..]);
  }

  /** What is printed of the envelopes reads back as them, comments aside. */
  lemma {:induction false} SendsReads(
    items: seq<Sse.Item>, es: seq<Envelope<Event>>, dumps: Envelope<Event> -> string, parse: string -> Option<Envelope<Event>>)
    requires Sends(items, es, dumps) && Faithful(es, dumps, parse) && WellNamed(es)
    ensures Sse.Kept(parse, Sse.DataOf(items)) == es
  {
    if items != [] {
      DataOfRest(items);
      if items[0].Comment? {
        SendsReads(items[1..], es, dumps, parse);
      } else {
        RestIsFaithful(es, dumps, parse);
        SendsReads(items[1..], es[1..], dumps, parse);
        BlockReads(es[0], Sse.DataOf(items[1..]), dumps, parse);
      }
    }
  }

  /** What a client was delivered is from the log, so under the methods runs use. */
  lemma {:induction false} DeliveredNames(
    size: nat, loads: Loads, stored: Option<string>, actions: seq<Action>, id: Delivery.ConnectionId)
    requires Handoff.Connected(HubAfter(size, loads, stored, actions), id)
    ensures WellNamed(HubAfter(size, loads, stored, actions).connections[id].delivered)
  {
    LogCarried(size, loads, stored, actions);
    Handoff.DeliveredInOrder(size, HubSteps(loads, stored, actions), id);
    var s := HubAfter(size, loads, stored, actions);
    forall i | 0 <= i < |s.connections[id].delivered|
      ensures s.connections[id].delivered[i].name == MethodOf(s.connections[id].delivered[i].data)
              && s.connections[id].delivered[i].namespace == []
    {
      assert s.connections[id].delivered[i] in s.log;
    }
  }

  /** A client's text, however cut, gives back the envelopes delivered to it. */
  lemma {:induction false} TextReads(
    size: nat, loads: Loads, stored: Option<string>, actions: seq<Action>, id: Delivery.ConnectionId,
    items: seq<Sse.Item>, chunks: seq<string>, dumps: Envelope<Event> -> string, parse: string -> Option<Envelope<Event>>)
    requires Handoff.Connected(HubAfter(size, loads, stored, actions), id)
    requires var es := HubAfter(size, loads, stored, actions).connections[id].delivered;
             Sends(items, es, dumps) && Faithful(es, dumps, parse)
    requires Sse.Joined(chunks) == Sse.Printed(items)
    ensures Sse.Kept(parse, Sse.Parse(chunks).0) == HubAfter(size, loads, stored, actions).connections[id].delivered
  {
    DeliveredNames(size, loads, stored, actions, id);
    var es := HubAfter(size, loads, stored, actions).connections[id].delivered;
    SendsPrintable(items, es, dumps, parse);
    SendsReads(items, es, dumps, parse);
    Sse.RoundTrip(items, chunks);
  }

  /**
   From the graphs to the far end of the wire: whatever chunks the text of a
   client that has caught up arrives in, the parser's envelopes decode to
   exactly what the thread's graphs streamed.
   */
  lemma {:induction false} ReaderGetsWhatGraphsSaid(
    size: nat, loads: Loads, stored: Option<string>, actions: seq<Action>, id: Delivery.ConnectionId,
    items: seq<Sse.Item>, chunks: seq<string>, dumps: Envelope<Event> -> string, parse: string -> Option<Envelope<Event>>)
    requires CaughtUp(HubAfter(size, loads, stored, actions), id)
    requires HubAfter(size, loads, stored, actions).records[id].filter.channels == {}
    requires var es := HubAfter(size, loads, stored, actions).connections[id].delivered;
             Sends(items, es, dumps) && Faithful(es, dumps, parse)
    requires Sse.Joined(chunks) == Sse.Printed(items)
    ensures Decode(Payloads(Sse.Kept(parse, Sse.Parse(chunks).0))) == Conveyed(ThreadAfter(loads, stored, actions).tasks)
  {
    TextReads(size, loads, stored, actions, id, items, chunks, dumps, parse);
    ClientReadsWhatGraphsSaid(size, loads, stored, actions, id);
  }
}
