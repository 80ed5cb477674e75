/**
 The translator's own description promises that concurrent messages interleave
 safely; the code finishes every open message when another one starts. This is
 exactly when a chunk is dropped, for every sequence of calls, said of the calls
 alone.
 */
module Interleaving {
  import opened Options
  import opened Json
  import opened Translation
  import opened Frames
  import opened RoundTrip

  // ------------------------------------------------- what happened to a message

  /** The call feeds a chunk of the message. */
  predicate Feeds(call: Call, id: string) {
    call.Feed? && RoleOf(call.chunk).Some? && MessageId(call.chunk) == id
  }

  /** The call finishes the message, if it is there: by its id, or with all others. */
  predicate Ends(call: Call, id: string) {
    call.FinishEvery? || (call.FinishMessage? && Truthy(call.chunk.id) && call.chunk.id.value == id)
  }

  predicate WasFed(calls: seq<Call>, id: string) {
    exists p :: 0 <= p < |calls| && Feeds(calls[p], id)
  }

  /** The call is the first to feed its message. */
  predicate Introduces(calls: seq<Call>, q: int) {
    && 0 <= q < |calls| && calls[q].Feed? && RoleOf(calls[q].chunk).Some?
    && forall n :: 0 <= n < q ==> !Feeds(calls[n], MessageId(calls[q].chunk))
  }

  /** Another message first appeared after this one did. */
  predicate Overtaken(calls: seq<Call>, id: string) {
    exists p, q :: 0 <= p < q < |calls| && Introduces(calls, q) && Feeds(calls[p], id)
  }

  /** A finishing call reached the message. */
  predicate Ended(calls: seq<Call>, id: string) {
    exists p, q :: 0 <= p < q < |calls| && Feeds(calls[p], id) && Ends(calls[q], id)
  }

  lemma {:induction false} WasFedSnoc(calls: seq<Call>, x: Call, id: string)
    ensures WasFed(calls + [x], id) <==> WasFed(calls, id) || Feeds(x, id)
  {
    var all := calls + [x];
    if WasFed(calls, id) {
      var p :| 0 <= p < |calls| && Feeds(calls[p], id);
      assert Feeds(all[p], id);
    }
    if Feeds(x, id) {
      assert Feeds(all[|calls|], id);
    }
  }

  /** The last call introduces a message. */
  predicate New(calls: seq<Call>, x: Call) {
    x.Feed? && RoleOf(x.chunk).Some? && !WasFed(calls, MessageId(x.chunk))
  }

  lemma {:induction false} IntroducesSnoc(calls: seq<Call>, x: Call, q: int)
    ensures Introduces(calls + [x], q) <==> Introduces(calls, q) || (q == |calls| && New(calls, x))
  {
    var all := calls + [x];
    assert forall n :: 0 <= n < |calls| ==> all[n] == calls[n];
  }

  lemma {:induction false} OvertakenSnoc(calls: seq<Call>, x: Call, id: string)
    ensures Overtaken(calls + [x], id) <==> Overtaken(calls, id) || (WasFed(calls, id) && New(calls, x))
  {
    var all := calls + [x];
    if Overtaken(calls, id) {
      var p, q :| 0 <= p < q < |calls| && Introduces(calls, q) && Feeds(calls[p], id);
      IntroducesSnoc(calls, x, q);
      assert Feeds(all[p], id);
    }
    if WasFed(calls, id) && New(calls, x) {
      var p :| 0 <= p < |calls| && Feeds(calls[p], id);
      IntroducesSnoc(calls, x, |calls|);
      assert Feeds(all[p], id);
    }
    if Overtaken(all, id) {
      var p, q :| 0 <= p < q < |all| && Introduces(all, q) && Feeds(all[p], id);
      IntroducesSnoc(calls, x, q);
      assert Feeds(calls[p], id);
    }
  }

  lemma {:induction false} EndedSnoc(calls: seq<Call>, x: Call, id: string)
    ensures Ended(calls + [x], id) <==> Ended(calls, id) || (WasFed(calls, id) && Ends(x, id))
  {
    var all := calls + [x];
    if Ended(calls, id) {
      var p, q :| 0 <= p < q < |calls| && Feeds(calls[p], id) && Ends(calls[q], id);
      assert Feeds(all[p], id) && Ends(all[q], id);
    }
    if WasFed(calls, id) && Ends(x, id) {
      var p :| 0 <= p < |calls| && Feeds(calls[p], id);
      assert Feeds(all[p], id) && Ends(all[|calls|], id);
    }
    if Ended(all, id) {
      var p, q :| 0 <= p < q < |all| && Feeds(all[p], id) && Ends(all[q], id);
      assert Feeds(calls[p], id);
    }
  }

  // ------------------------------------------------------- and what is left of it

  /** None for a message not in the ledger, else whether it is closed. */
  function Status(ledger: seq<Entry>, id: string): Option<bool> {
    var at := Position(ledger, id);
    if at.None? then None else Some(ledger[at.value].closed)
  }

  lemma {:induction false} SamePositions(ledger: seq<Entry>, ledger': seq<Entry>, id: string)
    requires |ledger| == |ledger'| && forall k :: 0 <= k < |ledger| ==> ledger[k].id == ledger'[k].id
    ensures Position(ledger, id) == Position(ledger', id)
  {
    if ledger != [] {
      SamePositions(ledger[..|ledger| - 1], ledger'[..|ledger| - 1], id);
    }
  }

  lemma {:induction false} CloseAllStatus(ledger: seq<Entry>, id: string)
    ensures Status(CloseAll(ledger), id) == if Status(ledger, id).Some? then Some(true) else None
  {
    SamePositions(ledger, CloseAll(ledger), id);
  }

  lemma {:induction false} AppendStatus(ledger: seq<Entry>, e: Entry, id: string)
    ensures Status(ledger + [e], id) == if e.id == id then Some(e.closed) else Status(ledger, id)
  {
    assert (ledger + [e])[..|ledger|] == ledger;
  }

  lemma {:induction false} UpdateStatus(ledger: seq<Entry>, k: nat, e: Entry, id: string)
    requires Sequential(ledger) && k < |ledger| && e.id == ledger[k].id
    ensures Status(ledger[k := e], id) == if e.id == id then Some(e.closed) else Status(ledger, id)
  {
    SamePositions(ledger, ledger[k := e], id);
    if e.id == id {
      assert Position(ledger, id) == Some(k);
    }
  }

  /** What one call does to one message. */
  function StatusAfter(ledger: seq<Entry>, call: Call, id: string): Option<bool> {
    if Status(ledger, id).Some? then
      if Ends(call, id) || (call.Feed? && RoleOf(call.chunk).Some? && Status(ledger, MessageId(call.chunk)).None?)
      then Some(true) else Status(ledger, id)
    else if Feeds(call, id) then Some(false) else None
  }

  lemma {:induction false} FeedStatus(ledger: seq<Entry>, c: Chunk, id: string)
    requires Sequential(ledger)
    ensures Status(Enter(ledger, Feed(c)), id) == StatusAfter(ledger, Feed(c), id)
  {
    if RoleOf(c).Some? {
      var at := Position(ledger, MessageId(c));
      if at.None? {
        CloseAllStatus(ledger, id);
        AppendStatus(CloseAll(ledger), Entry(MessageId(c), RoleOf(c).value, [c], None, false), id);
      } else if !ledger[at.value].closed {
        UpdateStatus(ledger, at.value, ledger[at.value].(chunks := ledger[at.value].chunks + [c]), id);
      }
    }
  }

  lemma {:induction false} FinishStatus(ledger: seq<Entry>, c: Chunk, id: string)
    requires Sequential(ledger)
    ensures Status(Enter(ledger, FinishMessage(c)), id) == StatusAfter(ledger, FinishMessage(c), id)
  {
    var at := if Truthy(c.id) then Position(ledger, c.id.value) else None;
    if at.Some? && !ledger[at.value].closed {
      UpdateStatus(ledger, at.value, ledger[at.value].(closed := true, usage := c.usage), id);
    }
  }

  lemma {:induction false} EnterStatus(ledger: seq<Entry>, call: Call, id: string)
    requires Sequential(ledger)
    ensures Status(Enter(ledger, call), id) == StatusAfter(ledger, call, id)
  {
    match call
    case Feed(c) => FeedStatus(ledger, c, id);
    case FinishMessage(c) => FinishStatus(ledger, c, id);
    case FinishEvery => CloseAllStatus(ledger, id);
  }

  lemma {:induction false} LedgerSequential(loads: Loads, calls: seq<Call>)
    ensures Sequential(Ledger(calls))
    ensures Related(ApplyAll(Translator(loads, []), calls).translator.open, Ledger(calls))
  {
    ApplyAllRelated(loads, calls);
  }

  function StatusByCalls(calls: seq<Call>, id: string): Option<bool> {
    if WasFed(calls, id) then Some(Overtaken(calls, id) || Ended(calls, id)) else None
  }

  lemma {:induction false} StatusStep(ledger: seq<Entry>, calls: seq<Call>, x: Call, all: seq<Call>, id: string)
    requires Sequential(ledger) && all == calls + [x] && Status(ledger, id) == StatusByCalls(calls, id)
    requires x.Feed? ==> Status(ledger, MessageId(x.chunk)) == StatusByCalls(calls, MessageId(x.chunk))
    ensures Status(Enter(ledger, x), id) == StatusByCalls(all, id)
  {
    EnterStatus(ledger, x, id);
    StatusSnoc(calls, x, id);
  }

  lemma {:induction false} SplitLast(calls: seq<Call>, k: nat)
    requires k < |calls|
    ensures calls[..k + 1] == calls[..k] + [calls[k]]
    ensures Ledger(calls[..k + 1]) == Enter(Ledger(calls[..k]), calls[k])
  {
    assert calls[..k + 1][..k] == calls[..k];
  }

  lemma {:induction false} StatusUpTo(loads: Loads, calls: seq<Call>, k: nat, id: string)
    requires k <= |calls|
    ensures Status(Ledger(calls[..k]), id) == StatusByCalls(calls[..k], id)
    decreases k
  {
    if k > 0 {
      SplitLast(calls, k - 1);
      LedgerSequential(loads, calls[..k - 1]);
      StatusUpTo(loads, calls, k - 1, id);
      if calls[k - 1].Feed? { StatusUpTo(loads, calls, k - 1, MessageId(calls[k - 1].chunk)); }
      StatusStep(Ledger(calls[..k - 1]), calls[..k - 1], calls[k - 1], calls[..k], id);
    }
  }

  /** A message is there once it was fed, and closed once it was overtaken or finished. */
  lemma {:induction false} StatusMeans(loads: Loads, calls: seq<Call>, id: string)
    ensures Status(Ledger(calls), id) == StatusByCalls(calls, id)
  {
    StatusUpTo(loads, calls, |calls|, id);
    assert calls[..|calls|] == calls;
  }

  lemma {:induction false} StatusSnoc(calls: seq<Call>, x: Call, id: string)
    ensures StatusByCalls(calls + [x], id) ==
            if WasFed(calls, id) then
              Some(Overtaken(calls, id) || Ended(calls, id) || New(calls, x) || Ends(x, id))
            else if Feeds(x, id) then Some(false) else None
  {
    WasFedSnoc(calls, x, id);
    OvertakenSnoc(calls, x, id);
    EndedSnoc(calls, x, id);
    if !WasFed(calls, id) { NothingBefore(calls, id); }
  }

  lemma {:induction false} NothingBefore(calls: seq<Call>, id: string)
    requires !WasFed(calls, id)
    ensures !Overtaken(calls, id) && !Ended(calls, id)
  {
  }

  // ------------------------------------------------------------------ the result

  lemma {:induction false} DroppedIffClosed(ledger: seq<Entry>, c: Chunk)
    requires RoleOf(c).Some?
    ensures Enter(ledger, Feed(c)) == ledger <==> Status(ledger, MessageId(c)) == Some(true)
  {
    var at := Position(ledger, MessageId(c));
    if at.None? {
      assert |Enter(ledger, Feed(c))| == |ledger| + 1;
    } else if !ledger[at.value].closed {
      assert |Enter(ledger, Feed(c))[at.value].chunks| == |ledger[at.value].chunks| + 1;
    }
  }

  /**
   A fed chunk is dropped exactly when its message was overtaken by a newer one
   or a finishing call reached it, whatever calls came before; then nothing is
   sent and nothing changes.
   */
  lemma {:induction false} DroppedIffOvertakenOrEnded(loads: Loads, calls: seq<Call>, c: Chunk)
    requires RoleOf(c).Some?
    ensures Enter(Ledger(calls), Feed(c)) == Ledger(calls) <==>
            Overtaken(calls, MessageId(c)) || Ended(calls, MessageId(c))
    ensures Overtaken(calls, MessageId(c)) || Ended(calls, MessageId(c)) ==>
              var t := ApplyAll(Translator(loads, []), calls).translator; Apply(t, Feed(c)) == Output(t, [])
  {
    var id := MessageId(c);
    StatusMeans(loads, calls, id);
    DroppedIffClosed(Ledger(calls), c);
    if !WasFed(calls, id) { NothingBefore(calls, id); }
    if Overtaken(calls, id) || Ended(calls, id) {
      LedgerSequential(loads, calls);
      NothingEnteredNothingSent(ApplyAll(Translator(loads, []), calls).translator, Ledger(calls), Feed(c));
    }
  }

  lemma {:induction false} SpokenWithChunk(cs: seq<Chunk>, c: Chunk)
    ensures SpokenText(Pieces(cs + [c])) == SpokenText(Pieces(cs)) + TextContent(c)
  {
    PiecesSnoc(cs, c);
    var text := if TextContent(c) == "" then [] else [Spoken(TextContent(c))];
    SilentPieces(Pieces(cs) + text, c.fragments);
    assert Pieces(cs) + text + CalledPieces(c.fragments) == Pieces(cs) + PiecesOf(c);
    if TextContent(c) == "" {
      assert Pieces(cs) + [] == Pieces(cs) && SpokenText(Pieces(cs)) + "" == SpokenText(Pieces(cs));
    } else {
      assert (Pieces(cs) + [Spoken(TextContent(c))])[..|Pieces(cs)|] == Pieces(cs);
    }
  }

  lemma {:induction false} SilentPieces(ps: seq<Piece>, fs: seq<Fragment>)
    ensures SpokenText(ps + CalledPieces(fs)) == SpokenText(ps)
  {
    if fs == [] {
      assert ps + [] == ps;
    } else {
      var init := fs[..|fs| - 1];
      SilentPieces(ps, init);
      assert (ps + CalledPieces(fs))[..|ps + CalledPieces(init)|] == ps + CalledPieces(init);
      assert SpokenText(ps) + "" == SpokenText(ps);
    }
  }

  /** All chunks fed to a message, in order. */
  function FedTo(calls: seq<Call>, id: string): seq<Chunk> {
    if calls == [] then []
    else
      var last := calls[|calls| - 1];
      FedTo(calls[..|calls| - 1], id) + if Feeds(last, id) then [last.chunk] else []
  }

  lemma {:induction false} NothingFed(calls: seq<Call>, id: string)
    requires !WasFed(calls, id)
    ensures FedTo(calls, id) == []
  {
    if calls != [] {
      var init, x := calls[..|calls| - 1], calls[|calls| - 1];
      assert init + [x] == calls;
      WasFedSnoc(init, x, id);
      NothingFed(init, id);
    }
  }

  /** The newest entry is the message's, open, with these chunks. */
  ghost predicate Holds(ledger: seq<Entry>, id: string, cs: seq<Chunk>) {
    && ledger != []
    && var last := ledger[|ledger| - 1];
       last.id == id && !last.closed && last.chunks == cs
  }

  lemma {:induction false} HoldsNew(ledger: seq<Entry>, c: Chunk)
    requires RoleOf(c).Some? && Status(ledger, MessageId(c)).None?
    ensures Holds(Enter(ledger, Feed(c)), MessageId(c), [c])
  {
  }

  lemma {:induction false} HoldsStill(ledger: seq<Entry>, x: Call, id: string, cs: seq<Chunk>)
    requires Sequential(ledger) && Holds(ledger, id, cs) && !Ends(x, id)
    requires x.Feed? && RoleOf(x.chunk).Some? ==> Status(ledger, MessageId(x.chunk)).Some?
    ensures Holds(Enter(ledger, x), id, cs + if Feeds(x, id) then [x.chunk] else [])
  {
    assert cs + [] == cs;
    if x.FinishMessage? && Truthy(x.chunk.id) {
      var at := Position(ledger, x.chunk.id.value);
      assert at.Some? ==> at.value != |ledger| - 1;
    }
  }

  /** A message neither overtaken nor ended holds every chunk ever fed to it. */
  lemma {:induction false} HoldsAll(loads: Loads, calls: seq<Call>, k: nat, id: string)
    requires k <= |calls| && WasFed(calls[..k], id) && !Overtaken(calls[..k], id) && !Ended(calls[..k], id)
    ensures Holds(Ledger(calls[..k]), id, FedTo(calls[..k], id))
    decreases k
  {
    if k > 0 {
      var init, x := calls[..k - 1], calls[k - 1];
      SplitLast(calls, k - 1);
      WasFedSnoc(init, x, id);
      OvertakenSnoc(init, x, id);
      EndedSnoc(init, x, id);
      assert FedTo(calls[..k], id) == FedTo(init, id) + if Feeds(x, id) then [x.chunk] else [] by {
        assert calls[..k][..k - 1] == init;
      }
      if x.Feed? { StatusMeans(loads, init, MessageId(x.chunk)); }
      if WasFed(init, id) {
        HoldsAll(loads, calls, k - 1, id);
        LedgerSequential(loads, init);
        HoldsStill(Ledger(init), x, id, FedTo(init, id));
      } else {
        NothingFed(init, id);
        HoldsNew(Ledger(init), x.chunk);
        assert [] + [x.chunk] == [x.chunk];
      }
    }
  }

  /** The reading is of an open message with these chunks. */
  ghost predicate ReadsAs(loads: Loads, r: Reading, id: string, cs: seq<Chunk>) {
    exists e: Entry :: e.id == id && !e.closed && e.chunks == cs && r == Meaning(loads, e)
  }

  lemma {:induction false} HeldIsRead(loads: Loads, ledger: seq<Entry>, id: string, cs: seq<Chunk>, read: Option<seq<Reading>>)
    requires Holds(ledger, id, cs) && read == Some(Meanings(loads, ledger))
    ensures read.value != [] && ReadsAs(loads, read.value[|read.value| - 1], id, cs)
  {
    assert read.value[|ledger| - 1] == Meaning(loads, ledger[|ledger| - 1]);
  }

  lemma {:induction false} ReadsText(loads: Loads, r: Reading, id: string, before: seq<Chunk>, c: Chunk)
    requires ReadsAs(loads, r, id, before + [c])
    ensures r.id == id && !r.finished && r.text == SpokenText(Pieces(before)) + TextContent(c)
  {
    SpokenWithChunk(before, c);
  }

  /**
   The other half: after a fed chunk that is neither overtaken nor ended, the
   reader of the frames has its message last and open, with the meaning of
   every chunk ever fed to it, and its text ends with this chunk's.
   */
  lemma {:induction false} KeptOtherwise(loads: Loads, calls: seq<Call>, c: Chunk)
    requires RoleOf(c).Some? && !Overtaken(calls, MessageId(c)) && !Ended(calls, MessageId(c))
    ensures var read := ReadAll([], ApplyAll(Translator(loads, []), calls + [Feed(c)]).frames);
      && read.Some? && read.value != []
      && ReadsAs(loads, read.value[|read.value| - 1], MessageId(c), FedTo(calls, MessageId(c)) + [c])
      && read.value[|read.value| - 1].text == SpokenText(Pieces(FedTo(calls, MessageId(c)))) + TextContent(c)
  {
    var id, all := MessageId(c), calls + [Feed(c)];
    FedNow(calls, c);
    assert all[..|all|] == all;
    HoldsAll(loads, all, |all|, id);
    RoundTrip.RoundTrip(loads, all);
    var read := ReadAll([], ApplyAll(Translator(loads, []), all).frames);
    HeldIsRead(loads, Ledger(all), id, FedTo(calls, id) + [c], read);
    ReadsText(loads, read.value[|read.value| - 1], id, FedTo(calls, id), c);
  }

  lemma {:induction false} FedNow(calls: seq<Call>, c: Chunk)
    requires RoleOf(c).Some? && !Overtaken(calls, MessageId(c)) && !Ended(calls, MessageId(c))
    ensures var all := calls + [Feed(c)]; var id := MessageId(c);
      && WasFed(all, id) && !Overtaken(all, id) && !Ended(all, id)
      && FedTo(all, id) == FedTo(calls, id) + [c]
  {
    var x, id := Feed(c), MessageId(c);
    assert (calls + [x])[..|calls|] == calls;
    WasFedSnoc(calls, x, id);
    OvertakenSnoc(calls, x, id);
    EndedSnoc(calls, x, id);
  }

  /** Two messages taking turns: the second chunk of the first one is lost. */
  lemma {:induction false} InterleavingLosesChunk(loads: Loads, a: Chunk, b: Chunk, a': Chunk)
    requires RoleOf(a).Some? && RoleOf(b).Some? && RoleOf(a').Some?
    requires MessageId(a) == MessageId(a') != MessageId(b)
    ensures var two := [Feed(a), Feed(b)];
      && Enter(Ledger(two), Feed(a')) == Ledger(two)
      && ApplyAll(Translator(loads, []), two + [Feed(a')]) == ApplyAll(Translator(loads, []), two)
  {
    var two := [Feed(a), Feed(b)];
    assert Introduces(two, 1) && Feeds(two[0], MessageId(a'));
    assert Overtaken(two, MessageId(a'));
    DroppedIffOvertakenOrEnded(loads, two, a');
    assert (two + [Feed(a')])[..2] == two;
    assert ApplyAll(Translator(loads, []), two).frames + [] == ApplyAll(Translator(loads, []), two).frames;
  }
}
