/**
 Which message a chunk belongs to and what a finished message tells, said of the
 chunks' own fields and of what the reader has: ids, texts, usage, arguments.
 */
module Identity {
  import opened Options
  import opened Json
  import opened Translation
  import opened Frames
  import opened RoundTrip
  import opened Interleaving

  /** The id a chunk names, or a name made from the object it is when it names none. */
  function OwnId(c: Chunk): string {
    match c.id
    case Some(id) => if id != "" then id else "msg-" + c.fallback
    case None => "msg-" + c.fallback
  }

  function ReadAfter(loads: Loads, calls: seq<Call>): Option<seq<Reading>> {
    ReadAll([], ApplyAll(Translator(loads, []), calls).frames)
  }

  lemma {:induction false} LedgerNext(calls: seq<Call>, x: Call)
    ensures Ledger(calls + [x]) == Enter(Ledger(calls), x)
  {
    assert (calls + [x])[..|calls|] == calls;
  }

  /** Once a chunk of a known role was fed, the reader has a message under exactly its id. */
  lemma {:induction false} ReadUnderOwnId(loads: Loads, calls: seq<Call>, c: Chunk)
    requires RoleOf(c).Some?
    ensures var read := ReadAfter(loads, calls + [Feed(c)]);
      read.Some? && exists k :: 0 <= k < |read.value| && read.value[k].id == OwnId(c)
  {
    RoundTrip.RoundTrip(loads, calls + [Feed(c)]);
    LedgerNext(calls, Feed(c));
    LedgerSequential(loads, calls);
    FeedStatus(Ledger(calls), c, MessageId(c));
    var l := Ledger(calls + [Feed(c)]);
    var k := Position(l, MessageId(c)).value;
    assert Meanings(loads, l)[k].id == OwnId(c);
  }

  // ------------------------------------------------------ the chunks of one message

  /** No chunk of a known role so far belongs to the message. */
  predicate Unheard(calls: seq<Call>, id: string) {
    forall i :: 0 <= i < |calls| ==> calls[i].Feed? && RoleOf(calls[i].chunk).Some? ==> OwnId(calls[i].chunk) != id
  }

  /** Nothing overtakes the message or ends it: no message is new, and no call finishes this one. */
  predicate Continues(before: seq<Call>, more: seq<Call>, id: string) {
    forall i :: 0 <= i < |more| ==> LetsGoOn(before, more[i], id)
  }

  predicate LetsGoOn(before: seq<Call>, call: Call, id: string) {
    match call
    case Feed(c) => RoleOf(c).Some? ==> OwnId(c) == id || !Unheard(before, OwnId(c))
    case FinishMessage(d) => d.id != Some(id)
    case FinishEvery => false
  }

  predicate Adds(call: Call, id: string) {
    call.Feed? && RoleOf(call.chunk).Some? && OwnId(call.chunk) == id
  }

  /** The message's chunks among the calls. */
  function ChunksIn(calls: seq<Call>, id: string): seq<Chunk> {
    if calls == [] then []
    else
      var last := calls[|calls| - 1];
      ChunksIn(calls[..|calls| - 1], id) + if Adds(last, id) then [last.chunk] else []
  }

  function TextOf(cs: seq<Chunk>): string {
    if cs == [] then "" else TextOf(cs[..|cs| - 1]) + TextContent(cs[|cs| - 1])
  }

  lemma {:induction false} TextOneMore(cs: seq<Chunk>, k: nat)
    requires k < |cs|
    ensures cs[..k + 1] == cs[..k] + [cs[k]]
    ensures TextOf(cs[..k + 1]) == TextOf(cs[..k]) + TextContent(cs[k])
  {
    assert cs[..k + 1][..k] == cs[..k];
  }

  lemma {:induction false} SpokenUpTo(cs: seq<Chunk>, k: nat)
    requires k <= |cs|
    ensures SpokenText(Pieces(cs[..k])) == TextOf(cs[..k])
    decreases k
  {
    if k > 0 {
      SpokenUpTo(cs, k - 1);
      TextOneMore(cs, k - 1);
      SpokenWithChunk(cs[..k - 1], cs[k - 1]);
    }
  }

  lemma {:induction false} SpokenIsText(cs: seq<Chunk>)
    ensures SpokenText(Pieces(cs)) == TextOf(cs)
  {
    SpokenUpTo(cs, |cs|);
    assert cs[..|cs|] == cs;
  }

  lemma {:induction false} UnheardIsNew(loads: Loads, calls: seq<Call>, id: string)
    requires Unheard(calls, id)
    ensures Status(Ledger(calls), id).None?
  {
    assert !WasFed(calls, id);
    StatusMeans(loads, calls, id);
  }

  /** A message once heard stays known. */
  lemma {:induction false} HeardIsKnown(loads: Loads, before: seq<Call>, more: seq<Call>, id: string)
    requires !Unheard(before, id)
    ensures Status(Ledger(before + more), id).Some?
  {
    var i :| 0 <= i < |before| && before[i].Feed? && RoleOf(before[i].chunk).Some? && OwnId(before[i].chunk) == id;
    assert Feeds((before + more)[i], id);
    StatusMeans(loads, before + more, id);
  }

  lemma {:induction false} HoldsOneMore(ledger: seq<Entry>, id: string, cs: seq<Chunk>, before: seq<Call>, x: Call)
    requires Sequential(ledger) && Holds(ledger, id, cs) && LetsGoOn(before, x, id)
    requires x.Feed? && RoleOf(x.chunk).Some? && OwnId(x.chunk) != id ==> Status(ledger, OwnId(x.chunk)).Some?
    ensures Holds(Enter(ledger, x), id, cs + if Adds(x, id) then [x.chunk] else [])
  {
    assert x.Feed? ==> MessageId(x.chunk) == OwnId(x.chunk);
    HoldsStill(ledger, x, id, cs);
  }

  lemma {:induction false} OneMoreCall(calls: seq<Call>, more: seq<Call>, k: nat, id: string)
    requires k < |more|
    ensures calls + more[..k + 1] == calls + more[..k] + [more[k]]
    ensures ChunksIn(more[..k + 1], id) == ChunksIn(more[..k], id) + if Adds(more[k], id) then [more[k].chunk] else []
  {
    assert more[..k + 1][..k] == more[..k];
  }

  lemma {:induction false} AppendTwice<T>(a: seq<T>, b: seq<T>, c: seq<T>)
    ensures a + b + c == a + (b + c)
  {
  }

  lemma {:induction false} HoldsNextCall(
    loads: Loads, before: seq<Call>, now: seq<Call>, id: string, cs: seq<Chunk>, x: Call, cs': seq<Chunk>)
    requires before <= now && Holds(Ledger(now), id, cs) && LetsGoOn(before, x, id)
    requires cs' == cs + if Adds(x, id) then [x.chunk] else []
    ensures Holds(Ledger(now + [x]), id, cs')
  {
    LedgerSequential(loads, now);
    LedgerNext(now, x);
    if x.Feed? && RoleOf(x.chunk).Some? && OwnId(x.chunk) != id {
      HeardIsKnown(loads, before, now[|before|..], OwnId(x.chunk));
      assert before + now[|before|..] == now;
    }
    HoldsOneMore(Ledger(now), id, cs, before, x);
  }

  lemma {:induction false} HoldsUpTo(
    loads: Loads, before: seq<Call>, calls: seq<Call>, id: string, cs: seq<Chunk>, more: seq<Call>, k: nat)
    requires Holds(Ledger(calls), id, cs) && Continues(before, more, id) && k <= |more| && before <= calls
    ensures Holds(Ledger(calls + more[..k]), id, cs + ChunksIn(more[..k], id))
    decreases k
  {
    if k == 0 {
      assert calls + more[..0] == calls && cs + [] == cs;
    } else {
      HoldsUpTo(loads, before, calls, id, cs, more, k - 1);
      OneMoreCall(calls, more, k - 1, id);
      AppendTwice(cs, ChunksIn(more[..k - 1], id), if Adds(more[k - 1], id) then [more[k - 1].chunk] else []);
      HoldsNextCall(loads, before, calls + more[..k - 1], id, cs + ChunksIn(more[..k - 1], id), more[k - 1],
                    cs + ChunksIn(more[..k], id));
    }
  }

  /** After a first chunk and whatever lets its message go on, all its chunks are held. */
  lemma {:induction false} HeldTogether(loads: Loads, before: seq<Call>, c: Chunk, more: seq<Call>)
    requires RoleOf(c).Some? && Unheard(before, OwnId(c)) && Continues(before, more, OwnId(c))
    ensures Holds(Ledger(before + [Feed(c)] + more), OwnId(c), [c] + ChunksIn(more, OwnId(c)))
  {
    UnheardIsNew(loads, before, OwnId(c));
    LedgerNext(before, Feed(c));
    HoldsNew(Ledger(before), c);
    HoldsUpTo(loads, before, before + [Feed(c)], OwnId(c), [c], more, |more|);
    assert more[..|more|] == more;
  }

  /** The message read last has this id and text, and is or is not finished. */
  predicate LastRead(read: Option<seq<Reading>>, id: string, finished: bool, text: string) {
    && read.Some? && read.value != []
    && var last := read.value[|read.value| - 1];
       last.id == id && last.finished == finished && last.text == text
  }

  lemma {:induction false} HeldIsText(loads: Loads, ledger: seq<Entry>, id: string, cs: seq<Chunk>, read: Option<seq<Reading>>)
    requires Holds(ledger, id, cs) && read == Some(Meanings(loads, ledger))
    ensures LastRead(read, id, false, TextOf(cs))
  {
    SpokenIsText(cs);
  }

  /**
   Chunks with one id are one message as long as nothing overtakes or ends it:
   the reader has it last, under that id, open, with all their texts in order.
   */
  lemma {:induction false} OneMessage(loads: Loads, before: seq<Call>, c: Chunk, more: seq<Call>)
    requires RoleOf(c).Some? && Unheard(before, OwnId(c)) && Continues(before, more, OwnId(c))
    ensures LastRead(ReadAfter(loads, before + [Feed(c)] + more), OwnId(c), false, TextOf([c] + ChunksIn(more, OwnId(c))))
  {
    var all := before + [Feed(c)] + more;
    HeldTogether(loads, before, c, more);
    RoundTrip.RoundTrip(loads, all);
    HeldIsText(loads, Ledger(all), OwnId(c), [c] + ChunksIn(more, OwnId(c)), ReadAfter(loads, all));
  }

  /** The finishing call for a chunk closes the message its feeding call entered, with the chunk's usage. */
  lemma {:induction false} FinishedUnderOwnId(loads: Loads, before: seq<Call>, c: Chunk, more: seq<Call>, d: Chunk, id: string)
    requires RoleOf(c).Some? && c.id == Some(id) && d.id == Some(id) && id != ""
    requires Unheard(before, id) && Continues(before, more, id)
    ensures var read := ReadAfter(loads, before + [Feed(c)] + more + [FinishMessage(d)]);
      && read.Some? && read.value != []
      && var last := read.value[|read.value| - 1];
         last.id == id && last.finished && last.usage == d.usage && last.text == TextOf([c] + ChunksIn(more, OwnId(c)))
  {
    var calls := before + [Feed(c)] + more;
    HeldTogether(loads, before, c, more);
    LedgerNext(calls, FinishMessage(d));
    LedgerSequential(loads, calls);
    RoundTrip.RoundTrip(loads, calls + [FinishMessage(d)]);
    ClosesHeld(loads, Ledger(calls), d, id, [c] + ChunksIn(more, OwnId(c)), ReadAfter(loads, calls + [FinishMessage(d)]));
  }

  lemma {:induction false} ClosesHeld(
    loads: Loads, ledger: seq<Entry>, d: Chunk, id: string, cs: seq<Chunk>, read: Option<seq<Reading>>)
    requires Sequential(ledger) && Holds(ledger, id, cs) && d.id == Some(id) && id != ""
    requires read == Some(Meanings(loads, Enter(ledger, FinishMessage(d))))
    ensures read.value != []
    ensures var last := read.value[|read.value| - 1];
      last.id == id && last.finished && last.usage == d.usage && last.text == TextOf(cs)
  {
    assert Position(ledger, id) == Some(|ledger| - 1);
    SpokenIsText(cs);
  }

  // -------------------------------------------------------- finished tool calls

  lemma {:induction false} ClosedBlock(loads: Loads, e: Entry, i: int)
    requires e.closed && i in Meaning(loads, e).blocks
    ensures var b := Meaning(loads, e).blocks[i];
      b.closed == Some(ParseArgs(loads, b.args))
  {
  }

  /**
   The arguments a finished tool call carries are what its argument deltas read
   as: an object as it is, any other value as the one field "value", malformed
   text as the one field "raw"; no arguments are the empty object's text.
   */
  lemma {:induction false} FinishedArguments(loads: Loads, calls: seq<Call>, k: nat, i: int)
    requires var read := ReadAfter(loads, calls);
             read.Some? && k < |read.value| && read.value[k].finished && i in read.value[k].blocks
    ensures var b := ReadAfter(loads, calls).value[k].blocks[i];
      var text := if b.args == "" then "{}" else b.args;
      && b.closed.Some?
      && (loads(text).Some? && loads(text).value.Obj? ==> b.closed == loads(text))
      && (loads(text).Some? && !loads(text).value.Obj? ==> b.closed == Some(Obj([("value", loads(text).value)])))
      && (loads(text).None? ==> b.closed == Some(Obj([("raw", Str(text))])))
  {
    RoundTrip.RoundTrip(loads, calls);
    ClosedBlock(loads, Ledger(calls)[k], i);
  }

  /** The id or name told of a tool call is the first non-empty one, and with none the last that came. */
  lemma {:induction false} FirstNonEmpty(xs: seq<Option<string>>, i: nat)
    requires i < |xs|
    requires forall j :: 0 <= j < i ==> xs[j].None? || xs[j].value == ""
    ensures xs[i].Some? && xs[i].value != "" ==> FirstTruthy(xs) == xs[i]
    ensures i == |xs| - 1 ==> FirstTruthy(xs) == xs[i]
  {
    if i > 0 {
      FirstNonEmpty(xs[1..], i - 1);
    }
  }
}
