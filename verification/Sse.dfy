/**
 Server-sent events on the wire: the printer of
 src/fastapi_agent_protocol/router.py against the incremental parser of
 js/e2e.mjs, under any cutting of the text into chunks.
 */
module Sse {
  import opened Options

  // ------------------------------------------------------------------ printer

  /** What the stream's generator yields: an envelope as a block, or a comment. */
  datatype Item = Event(name: string, data: string, no: string) | Comment(text: string)

  predicate OneLine(text: string) { '\n' !in text }

  /** Assumed of wire methods, JSON text and numbers, and true of the two comments sent. */
  predicate Printable(item: Item) {
    match item
    case Event(name, data, no) => OneLine(name) && OneLine(data) && OneLine(no)
    case Comment(text) => OneLine(text)
  }

  function BlockText(item: Item): string {
    match item
    case Event(name, data, no) => ("event: " + name) + "\n" + (("data: " + data) + "\n" + ("id: " + no))
    case Comment(text) => ": " + text
  }

  function Printed(items: seq<Item>): string {
    if items == [] then "" else BlockText(items[0]) + "\n\n" + Printed(items[1..])
  }

  function DataOf(items: seq<Item>): seq<string> {
    if items == [] then []
    else (if items[0].Event? then [items[0].data] else []) + DataOf(items[1..])
  }

  // ------------------------------------------------------------------- parser

  predicate Break(text: string, i: nat) {
    i + 1 < |text| && text[i] == '\n' && text[i + 1] == '\n'
  }

  /** `text.indexOf("\n\n", from)`. */
  function IndexOfBreak(text: string, from: nat): (at: Option<nat>)
    requires from <= |text|
    ensures at.Some? ==> from <= at.value && Break(text, at.value) && forall k :: from <= k < at.value ==> !Break(text, k)
    ensures at.None? ==> forall k :: from <= k < |text| ==> !Break(text, k)
    decreases |text| - from
  {
    if from == |text| then None
    else if Break(text, from) then Some(from)
    else IndexOfBreak(text, from + 1)
  }

  /** The complete blocks of a text, and what is left after the last of them. */
  datatype Cut = Cut(blocks: seq<string>, rest: string)

  function CutBlocks(text: string): Cut
    decreases |text|
  {
    match IndexOfBreak(text, 0)
    case None => Cut([], text)
    case Some(i) =>
      var more := CutBlocks(text[i + 2..]);
      Cut([text[..i]] + more.blocks, more.rest)
  }

  function IndexOfLine(text: string, from: nat): (at: Option<nat>)
    requires from <= |text|
    ensures at.Some? ==> from <= at.value < |text| && text[at.value] == '\n'
    ensures at.Some? ==> forall k :: from <= k < at.value ==> text[k] != '\n'
    ensures at.None? ==> forall k :: from <= k < |text| ==> text[k] != '\n'
    decreases |text| - from
  {
    if from == |text| then None
    else if text[from] == '\n' then Some(from)
    else IndexOfLine(text, from + 1)
  }

  /** `text.split("\n")`. */
  function Lines(text: string): seq<string>
    decreases |text|
  {
    match IndexOfLine(text, 0)
    case None => [text]
    case Some(i) => [text[..i]] + Lines(text[i + 1..])
  }

  /** The data a line carries; comments, event names and ids carry none. */
  function LineData(line: string): seq<string> {
    if ":" <= line || "event: " <= line then []
    else if "data: " <= line then [line[6..]] else []
  }

  /** Each element's contribution, one after the other. */
  function Flatten<A, B>(xs: seq<A>, f: A -> seq<B>): seq<B> {
    if xs == [] then [] else Flatten(xs[..|xs| - 1], f) + f(xs[|xs| - 1])
  }

  function LinesData(lines: seq<string>): seq<string> { Flatten(lines, LineData) }

  function BlockData(block: string): seq<string> { LinesData(Lines(block)) }

  function BlocksData(blocks: seq<string>): seq<string> { Flatten(blocks, BlockData) }

  /** Everything the parser has made of a text by its end. */
  function DataIn(text: string): seq<string> { BlocksData(CutBlocks(text).blocks) }

  // --------------------------------------------------------- chunks do not matter

  lemma {:induction false} FirstBreakStays(text: string, more: string, from: nat)
    requires from <= |text| && IndexOfBreak(text, from).Some?
    ensures IndexOfBreak(text + more, from) == IndexOfBreak(text, from)
    decreases |text| - from
  {
    if !Break(text, from) {
      FirstBreakStays(text, more, from + 1);
    }
  }

  lemma {:induction false} CutAt(text: string, i: nat)
    requires IndexOfBreak(text, 0) == Some(i)
    ensures CutBlocks(text).blocks == [text[..i]] + CutBlocks(text[i + 2..]).blocks
    ensures CutBlocks(text).rest == CutBlocks(text[i + 2..]).rest
  {
  }

  /** Cutting a longer text continues from what was left of the shorter one. */
  lemma {:induction false} CutConcat(text: string, more: string)
    ensures CutBlocks(text + more).blocks == CutBlocks(text).blocks + CutBlocks(CutBlocks(text).rest + more).blocks
    ensures CutBlocks(text + more).rest == CutBlocks(CutBlocks(text).rest + more).rest
    decreases |text|
  {
    var at := IndexOfBreak(text, 0);
    if at.None? {
      assert [] + CutBlocks(text + more).blocks == CutBlocks(text + more).blocks;
    } else {
      var i := at.value;
      FirstBreakStays(text, more, 0);
      CutAt(text, i);
      CutAt(text + more, i);
      assert (text + more)[i + 2..] == text[i + 2..] + more && (text + more)[..i] == text[..i];
      CutConcat(text[i + 2..], more);
      AddFirst([text[..i]], CutBlocks(text[i + 2..]).blocks, CutBlocks(CutBlocks(text).rest + more).blocks);
    }
  }

  lemma {:induction false} AddFirst<T>(first: seq<T>, xs: seq<T>, ys: seq<T>)
    ensures first + (xs + ys) == first + xs + ys
  {
  }

  lemma {:induction false} FlattenConcat<A, B>(xs: seq<A>, ys: seq<A>, f: A -> seq<B>)
    ensures Flatten(xs + ys, f) == Flatten(xs, f) + Flatten(ys, f)
  {
    if ys == [] {
      assert xs + ys == xs;
    } else {
      FlattenConcat(xs, ys[..|ys| - 1], f);
      assert (xs + ys)[..|xs + ys| - 1] == xs + ys[..|ys| - 1];
    }
  }

  lemma {:induction false} FlattenOne<A, B>(x: A, f: A -> seq<B>)
    ensures Flatten([x], f) == f(x)
  {
    assert [x] == [] + [x] && [x][..0] == [];
    assert [] + f(x) == f(x);
  }

  lemma {:induction false} BlocksDataSnoc(blocks: seq<string>, block: string)
    ensures BlocksData(blocks + [block]) == BlocksData(blocks) + BlockData(block)
  {
    FlattenConcat(blocks, [block], BlockData);
    FlattenOne(block, BlockData);
  }

  function Joined(chunks: seq<string>): string {
    if chunks == [] then "" else Joined(chunks[..|chunks| - 1]) + chunks[|chunks| - 1]
  }

  /** The parser fed chunk by chunk: what it has pushed, and its buffer. */
  function Parse(chunks: seq<string>): (seq<string>, string) {
    if chunks == [] then ([], "")
    else
      var before := Parse(chunks[..|chunks| - 1]);
      var cut := CutBlocks(before.1 + chunks[|chunks| - 1]);
      (before.0 + BlocksData(cut.blocks), cut.rest)
  }

  lemma {:induction false} ChunksDoNotMatter(chunks: seq<string>)
    ensures Parse(chunks) == (DataIn(Joined(chunks)), CutBlocks(Joined(chunks)).rest)
  {
    if chunks != [] {
      var init, last := chunks[..|chunks| - 1], chunks[|chunks| - 1];
      ChunksDoNotMatter(init);
      CutConcat(Joined(init), last);
      FlattenConcat(CutBlocks(Joined(init)).blocks, CutBlocks(CutBlocks(Joined(init)).rest + last).blocks, BlockData);
    }
  }

  /** What has been parsed is never taken back. */
  lemma {:induction false} ParsedSoFar(text: string, more: string)
    ensures DataIn(text) <= DataIn(text + more)
  {
    CutConcat(text, more);
    FlattenConcat(CutBlocks(text).blocks, CutBlocks(CutBlocks(text).rest + more).blocks, BlockData);
  }

  // ----------------------------------------------------------- printing parses

  /** No empty line inside, before or after. */
  ghost predicate Solid(text: string) {
    && text != "" && text[0] != '\n' && text[|text| - 1] != '\n'
    && forall k :: 0 <= k < |text| ==> !Break(text, k)
  }

  lemma {:induction false} SolidLine(line: string)
    requires line != "" && OneLine(line)
    ensures Solid(line)
  {
    assert forall k :: 0 <= k < |line| ==> line[k] in line;
  }

  lemma {:induction false} SolidJoin(a: string, b: string)
    requires Solid(a) && Solid(b)
    ensures Solid(a + "\n" + b)
  {
    var text := a + "\n" + b;
    forall k | 0 <= k < |text| ensures !Break(text, k) {
      if k < |a| {
        assert !Break(a, k);
      } else if k > |a| {
        assert !Break(b, k - |a| - 1);
      }
    }
  }

  lemma {:induction false} FirstBreakAfter(block: string, more: string)
    requires Solid(block)
    ensures IndexOfBreak(block + "\n\n" + more, 0) == Some(|block|)
  {
    var text := block + "\n\n" + more;
    assert Break(text, |block|);
    forall k: nat | k < |block| ensures !Break(text, k) {
      assert !Break(block, k);
    }
  }

  lemma {:induction false} LinesOfOne(line: string)
    requires OneLine(line)
    ensures Lines(line) == [line]
  {
    assert forall k :: 0 <= k < |line| ==> line[k] in line;
  }

  lemma {:induction false} FirstLineEnds(line: string, text: string, from: nat)
    requires OneLine(line) && from <= |line| < |text| && text[..|line|] == line && text[|line|] == '\n'
    ensures IndexOfLine(text, from) == Some(|line|)
    decreases |line| - from
  {
    if from < |line| {
      assert text[from] == line[from] && line[from] in line;
      FirstLineEnds(line, text, from + 1);
    }
  }

  lemma {:induction false} LinesJoin(line: string, rest: string)
    requires OneLine(line)
    ensures Lines(line + "\n" + rest) == [line] + Lines(rest)
  {
    var text := line + "\n" + rest;
    assert text[..|line|] == line && text[|line| + 1..] == rest;
    FirstLineEnds(line, text, 0);
  }

  lemma {:induction false} LinesDataOf(a: string, b: string, c: string)
    ensures LinesData([a, b, c]) == LineData(a) + LineData(b) + LineData(c)
  {
    FlattenConcat([a, b], [c], LineData);
    FlattenConcat([a], [b], LineData);
    FlattenOne(a, LineData);
    FlattenOne(b, LineData);
    FlattenOne(c, LineData);
    assert [a, b] == [a] + [b] && [a, b, c] == [a, b] + [c];
  }

  lemma {:induction false} EventLines(name: string, data: string, no: string)
    ensures LineData("event: " + name) == [] && LineData("data: " + data) == [data] && LineData("id: " + no) == []
  {
    assert ("event: " + name)[..7] == "event: ";
    assert ("data: " + data)[..6] == "data: " && ("data: " + data)[6..] == data;
    assert ("data: " + data)[0] == 'd' && ("id: " + no)[0] == 'i' && "event: "[0] == 'e' && ":"[0] == ':' && "data: "[0] == 'd';
  }

  /** Three lines, none of them empty, make a block and are read back as they are. */
  lemma {:induction false} ThreeLines(a: string, b: string, c: string)
    requires a != "" && b != "" && c != "" && OneLine(a) && OneLine(b) && OneLine(c)
    ensures Solid(a + "\n" + (b + "\n" + c)) && Lines(a + "\n" + (b + "\n" + c)) == [a, b, c]
  {
    SolidLine(a);
    SolidLine(b);
    SolidLine(c);
    SolidJoin(b, c);
    SolidJoin(a, b + "\n" + c);
    LinesOfOne(c);
    LinesJoin(b, c);
    LinesJoin(a, b + "\n" + c);
  }

  lemma {:induction false} EventParses(item: Item)
    requires Printable(item) && item.Event?
    ensures Solid(BlockText(item)) && BlockData(BlockText(item)) == [item.data]
  {
    var event, data, id := "event: " + item.name, "data: " + item.data, "id: " + item.no;
    assert OneLine(event) && OneLine(data) && OneLine(id);
    ThreeLines(event, data, id);
    LinesDataOf(event, data, id);
    EventLines(item.name, item.data, item.no);
    assert BlockText(item) == event + "\n" + (data + "\n" + id);
  }

  lemma {:induction false} CommentParses(item: Item)
    requires Printable(item) && item.Comment?
    ensures Solid(BlockText(item)) && BlockData(BlockText(item)) == []
  {
    var line := BlockText(item);
    SolidLine(line);
    LinesOfOne(line);
    FlattenOne(line, LineData);
    assert line[..1] == ":";
  }

  /** Parsing what was printed gives back the data of every envelope, in order, with nothing left over. */
  lemma {:induction false} PrintedParses(items: seq<Item>)
    requires forall i :: 0 <= i < |items| ==> Printable(items[i])
    ensures DataIn(Printed(items)) == DataOf(items) && CutBlocks(Printed(items)).rest == ""
  {
    if items != [] {
      PrintedParses(items[1..]);
      if items[0].Event? { EventParses(items[0]); } else { CommentParses(items[0]); }
      FirstBlockParses(BlockText(items[0]), Printed(items[1..]));
    }
  }

  lemma {:induction false} FirstBlockParses(block: string, more: string)
    requires Solid(block)
    ensures DataIn(block + "\n\n" + more) == BlockData(block) + DataIn(more)
    ensures CutBlocks(block + "\n\n" + more).rest == CutBlocks(more).rest
  {
    var text := block + "\n\n" + more;
    FirstBreakAfter(block, more);
    CutAt(text, |block|);
    assert text[..|block|] == block && text[|block| + 2..] == more;
    FlattenConcat([block], CutBlocks(more).blocks, BlockData);
    FlattenOne(block, BlockData);
  }

  /**
   The round trip: for every sequence of envelopes and comments and every way of
   cutting the text into chunks, the parser pushes exactly the printed data, in
   order; and after any first part of the text it has pushed a first part of it.
   */
  lemma {:induction false} RoundTrip(items: seq<Item>, chunks: seq<string>)
    requires forall i :: 0 <= i < |items| ==> Printable(items[i])
    ensures Joined(chunks) == Printed(items) ==> Parse(chunks) == (DataOf(items), "")
    ensures Joined(chunks) <= Printed(items) ==> Parse(chunks).0 <= DataOf(items)
  {
    ChunksDoNotMatter(chunks);
    PrintedParses(items);
    if Joined(chunks) <= Printed(items) {
      PartParsed(Joined(chunks), Printed(items));
    }
  }

  lemma {:induction false} PartParsed(part: string, text: string)
    requires part <= text
    ensures DataIn(part) <= DataIn(text)
  {
    ParsedSoFar(part, text[|part|..]);
    assert part + text[|part|..] == text;
  }

  /** A block is its event name, data and number, a line each; a comment is one line. */
  lemma {:induction false} BlockLines(name: string, data: string, no: string)
    requires OneLine(name) && OneLine(data) && OneLine(no)
    ensures Lines(BlockText(Event(name, data, no))) == ["event: " + name, "data: " + data, "id: " + no]
    ensures Lines(BlockText(Comment(data))) == [": " + data]
  {
    ThreeLines("event: " + name, "data: " + data, "id: " + no);
    LinesOfOne(": " + data);
  }

  function Unlines(lines: seq<string>): string {
    if lines == [] then "" else if |lines| == 1 then lines[0] else lines[0] + "\n" + Unlines(lines[1..])
  }

  /** Splitting a block loses nothing, and no line has a break in it. */
  lemma {:induction false} LinesRejoin(text: string)
    ensures Unlines(Lines(text)) == text
    ensures Lines(text) != [] && forall i :: 0 <= i < |Lines(text)| ==> OneLine(Lines(text)[i])
    decreases |text|
  {
    var at := IndexOfLine(text, 0);
    if at.Some? {
      LinesRejoin(text[at.value + 1..]);
      assert Lines(text)[1..] == Lines(text[at.value + 1..]);
      assert text == text[..at.value] + "\n" + text[at.value + 1..];
    }
  }

  function Unblocked(blocks: seq<string>): string {
    if blocks == [] then "" else blocks[0] + "\n\n" + Unblocked(blocks[1..])
  }

  /** Cutting a text loses nothing, and neither a block nor the rest has an empty line in it. */
  lemma {:induction false} BlocksRejoin(text: string)
    ensures Unblocked(CutBlocks(text).blocks) + CutBlocks(text).rest == text
    ensures forall k: nat :: !Break(CutBlocks(text).rest, k)
    ensures forall i, k: nat :: 0 <= i < |CutBlocks(text).blocks| ==> !Break(CutBlocks(text).blocks[i], k)
    decreases |text|
  {
    var at := IndexOfBreak(text, 0);
    if at.Some? {
      var i := at.value;
      BlocksRejoin(text[i + 2..]);
      CutAt(text, i);
      assert CutBlocks(text).blocks[1..] == CutBlocks(text[i + 2..]).blocks;
      Reglued(text, i, Unblocked(CutBlocks(text[i + 2..]).blocks), CutBlocks(text).rest);
      forall k: nat ensures !Break(text[..i], k) {
        if k + 1 < i { assert !Break(text, k); }
      }
    }
  }

  lemma {:induction false} Reglued(text: string, i: nat, blocks: string, rest: string)
    requires Break(text, i) && text[i + 2..] == blocks + rest
    ensures text[..i] + "\n\n" + blocks + rest == text
  {
    assert text == text[..i] + "\n\n" + text[i + 2..];
  }

  // ------------------------------------------------------- the reader in place

  /** Parsed envelopes; text that does not parse is skipped. */
  function Kept<E>(parse: string -> Option<E>, data: seq<string>): seq<E> {
    if data == [] then []
    else
      var last := parse(data[|data| - 1]);
      Kept(parse, data[..|data| - 1]) + if last.Some? then [last.value] else []
  }

  lemma {:induction false} KeptConcat<E>(parse: string -> Option<E>, data: seq<string>, more: seq<string>)
    ensures Kept(parse, data + more) == Kept(parse, data) + Kept(parse, more)
  {
    if more == [] {
      assert data + more == data;
    } else {
      KeptConcat(parse, data, more[..|more| - 1]);
      assert (data + more)[..|data + more| - 1] == data + more[..|more| - 1];
    }
  }

  /** The local state of `readStream`. */
  class StreamReader<E> {
    const parse: string -> Option<E>
    var buf: string
    var envelopes: seq<E>

    constructor (parse: string -> Option<E>)
      ensures this.parse == parse && buf == "" && envelopes == []
    {
      this.parse := parse;
      buf, envelopes := "", [];
    }

    lemma {:induction false} KeptOne(data: string)
      ensures Kept(parse, [data]) == if parse(data).Some? then [parse(data).value] else []
    {
      assert [data] == [] + [data] && [data][..0] == [];
      assert Kept(parse, [data][..0]) == [];
    }

    method ReadLine(line: string)
      modifies this`envelopes
      ensures envelopes == old(envelopes) + Kept(parse, LineData(line))
    {
      if ":" <= line || "event: " <= line {
        return;
      }
      if "data: " <= line {
        KeptOne(line[6..]);
        var parsed := parse(line[6..]);
        if parsed.Some? {
          envelopes := envelopes + [parsed.value];
        }
      }
    }

    method ReadBlock(block: string)
      modifies this`envelopes
      ensures envelopes == old(envelopes) + Kept(parse, BlockData(block))
    {
      var lines := Lines(block);
      for n := 0 to |lines|
        invariant envelopes == old(envelopes) + Kept(parse, LinesData(lines[..n]))
      {
        ReadLine(lines[n]);
        assert lines[..n + 1][..n] == lines[..n];
        KeptConcat(parse, LinesData(lines[..n]), LineData(lines[n]));
      }
      assert lines[..|lines|] == lines;
    }

    /** Blocks read so far, and what the rest of the buffer still cuts into, make up the whole. */
    ghost predicate Reading(all: Cut, blocks: seq<string>, read: seq<E>)
      reads this
    {
      && all == Cut(blocks + CutBlocks(buf).blocks, CutBlocks(buf).rest)
      && envelopes == read + Kept(parse, BlocksData(blocks))
    }

    method ReadFirst(at: nat, ghost all: Cut, ghost blocks: seq<string>, ghost read: seq<E>)
      requires Reading(all, blocks, read) && IndexOfBreak(buf, 0) == Some(at)
      modifies this
      ensures buf == old(buf[at + 2..]) && Reading(all, blocks + [old(buf[..at])], read)
    {
      var block := buf[..at];
      buf := buf[at + 2..];
      ReadBlock(block);
      NextBlock(blocks, block, CutBlocks(buf).blocks, read);
    }

    lemma {:induction false} NextBlock(blocks: seq<string>, block: string, more: seq<string>, read: seq<E>)
      ensures blocks + ([block] + more) == blocks + [block] + more
      ensures read + Kept(parse, BlocksData(blocks + [block]))
              == read + Kept(parse, BlocksData(blocks)) + Kept(parse, BlockData(block))
    {
      AddFirst(blocks, [block], more);
      BlocksDataSnoc(blocks, block);
      KeptConcat(parse, BlocksData(blocks), BlockData(block));
      AddFirst(read, Kept(parse, BlocksData(blocks)), Kept(parse, BlockData(block)));
    }

    /** One chunk: every block it completes is read, and the rest waits in the buffer. */
    method Feed(chunk: string)
      modifies this
      ensures buf == CutBlocks(old(buf) + chunk).rest
      ensures envelopes == old(envelopes) + Kept(parse, BlocksData(CutBlocks(old(buf) + chunk).blocks))
    {
      buf := buf + chunk;
      ghost var blocks: seq<string>, all := [], CutBlocks(buf);
      var idx := IndexOfBreak(buf, 0);
      assert blocks + all.blocks == all.blocks;
      while idx.Some?
        invariant idx == IndexOfBreak(buf, 0) && Reading(all, blocks, old(envelopes))
        decreases |buf|
      {
        ghost var block := buf[..idx.value];
        ReadFirst(idx.value, all, blocks, old(envelopes));
        blocks := blocks + [block];
        idx := IndexOfBreak(buf, 0);
      }
      assert blocks + [] == blocks;
    }

    /** The reading loop: everything that arrives, chunk by chunk. */
    method FeedAll(chunks: seq<string>)
      requires buf == "" && envelopes == []
      modifies this
      ensures envelopes == Kept(parse, Parse(chunks).0) && buf == Parse(chunks).1
    {
      for n := 0 to |chunks|
        invariant envelopes == Kept(parse, Parse(chunks[..n]).0) && buf == Parse(chunks[..n]).1
      {
        ghost var before := Parse(chunks[..n]);
        assert chunks[..n + 1][..n] == chunks[..n];
        KeptConcat(parse, before.0, BlocksData(CutBlocks(before.1 + chunks[n]).blocks));
        Feed(chunks[n]);
      }
      assert chunks[..|chunks|] == chunks;
    }
  }
}
