/**
 The message translator (src/fastapi_agent_protocol/translation.py): streamed
 message chunks become protocol frames. The functions say what each call does
 to one emitter and which frames it sends; the classes are the mutable objects
 proved against them.
 */
module Translation {
  import opened Options
  import opened Json

  datatype Part = Bare(text: string) | TextPart(body: Option<string>) | OtherPart
  datatype Content = Text(text: string) | Parts(parts: seq<Part>) | NoText
  datatype Usage = Usage(tokens: map<string, nat>)

  /** One streamed piece of a tool call; absent or non-string arguments are None. */
  datatype Fragment = Fragment(index: Option<int>, id: Option<string>, name: Option<string>, args: Option<string>)

  /**
   A streamed chunk; `kind` is its lower-cased type, `fallback` the object identity
   used when it has no id. `usage` is there only when it is not empty: the source
   tests for a dictionary with something in it.
   */
  datatype Chunk = Chunk(
    kind: string, id: Option<string>, fallback: string, content: Content,
    fragments: seq<Fragment>, usage: Option<Usage>)

  datatype Frame =
    | MessageStart(role: string, id: string)
    | TextDelta(index: int, text: string)
    | BlockStart(index: int, callId: Option<string>, name: Option<string>)
    | BlockDelta(index: int, callId: Option<string>, name: Option<string>, args: string)
    | BlockFinish(index: int, callId: Option<string>, name: Option<string>, parsed: Json)
    | MessageFinish(usage: Option<Usage>)

  const ROLE_BY_TYPE: map<string, string> := map[
    "aimessage" := "ai", "aimessagechunk" := "ai",
    "humanmessage" := "human", "humanmessagechunk" := "human",
    "systemmessage" := "system", "systemmessagechunk" := "system",
    "toolmessage" := "tool", "toolmessagechunk" := "tool"]

  function RoleOf(c: Chunk): Option<string> {
    if c.kind in ROLE_BY_TYPE then Some(ROLE_BY_TYPE[c.kind]) else None
  }

  predicate Truthy(s: Option<string>) { s.Some? && s.value != "" }

  /** The operator `a or b` on optional strings. */
  function Or(a: Option<string>, b: Option<string>): Option<string> {
    if Truthy(a) then a else b
  }

  function MessageId(c: Chunk): string {
    if Truthy(c.id) then c.id.value else "msg-" + c.fallback
  }

  function PartText(part: Part): string {
    match part
    case Bare(text) => text
    case TextPart(body) => if body.Some? then body.value else ""
    case OtherPart => ""
  }

  function JoinParts(parts: seq<Part>): string {
    if parts == [] then "" else JoinParts(parts[..|parts| - 1]) + PartText(parts[|parts| - 1])
  }

  function TextContent(c: Chunk): string {
    match c.content
    case Text(text) => text
    case Parts(parts) => JoinParts(parts)
    case NoText => ""
  }

  /** Arguments as an object: other JSON under "value", malformed text under "raw". */
  function ParseArgs(loads: Loads, args: string): Json {
    var raw := if args == "" then "{}" else args;
    match loads(raw)
    case None => Obj([("raw", Str(raw))])
    case Some(parsed) => if parsed.Obj? then parsed else Obj([("value", parsed)])
  }

  // ------------------------------------------- what these amount to, in plain terms

  /** Eight kinds of chunks have a role; all others are left out of the stream. */
  lemma {:induction false} RolesAre(c: Chunk)
    ensures RoleOf(c) ==
            if c.kind == "aimessage" || c.kind == "aimessagechunk" then Some("ai")
            else if c.kind == "humanmessage" || c.kind == "humanmessagechunk" then Some("human")
            else if c.kind == "systemmessage" || c.kind == "systemmessagechunk" then Some("system")
            else if c.kind == "toolmessage" || c.kind == "toolmessagechunk" then Some("tool")
            else None
  {
  }

  /** Content that is no list. */
  lemma {:induction false} PlainTexts(c: Chunk, text: string)
    ensures TextContent(c.(content := Text(text))) == text
    ensures TextContent(c.(content := NoText)) == "" && TextContent(c.(content := Parts([]))) == ""
  {
  }

  /** Each part of a list adds its text at the end, and a part that is no text adds nothing. */
  lemma {:induction false} PartsAdd(c: Chunk, parts: seq<Part>, text: string)
    ensures var before := TextContent(c.(content := Parts(parts)));
      && TextContent(c.(content := Parts(parts + [Bare(text)]))) == before + text
      && TextContent(c.(content := Parts(parts + [TextPart(Some(text))]))) == before + text
      && TextContent(c.(content := Parts(parts + [TextPart(None)]))) == before
      && TextContent(c.(content := Parts(parts + [OtherPart]))) == before
  {
    JoinOneMore(parts, Bare(text));
    JoinOneMore(parts, TextPart(Some(text)));
    JoinOneMore(parts, TextPart(None));
    JoinOneMore(parts, OtherPart);
    assert JoinParts(parts) + "" == JoinParts(parts);
  }

  lemma {:induction false} JoinOneMore(parts: seq<Part>, part: Part)
    ensures JoinParts(parts + [part]) == JoinParts(parts) + PartText(part)
  {
    assert (parts + [part])[..|parts|] == parts;
  }

  datatype Block = Block(callId: Option<string>, name: Option<string>, args: string)

  datatype Emitter = Emitter(
    id: string, role: string, started: bool, finished: bool,
    textIndex: Option<int>, blocks: map<int, Block>, nextIndex: int, usage: Option<Usage>)

  function NewEmitter(id: string, role: string): Emitter {
    Emitter(id, role, false, false, None, map[], 0, None)
  }

  /** An emitter's next state and the frames it sends on the way. */
  datatype Emission = Emission(emitter: Emitter, frames: seq<Frame>)

  function EmitStart(e: Emitter): Emission {
    if e.started then Emission(e, [])
    else Emission(e.(started := true), [MessageStart(e.role, e.id)])
  }

  function EmitText(e: Emitter, text: string): Emission {
    if text == "" then Emission(e, [])
    else if e.textIndex.Some? then Emission(e, [TextDelta(e.textIndex.value, text)])
    else Emission(e.(textIndex := Some(e.nextIndex), nextIndex := e.nextIndex + 1), [TextDelta(e.nextIndex, text)])
  }

  /** A fragment adds to the block at its own index, or at a newly allocated one. */
  function EmitFragment(e: Emitter, f: Fragment): Emission {
    var index := if f.index.Some? then f.index.value else e.nextIndex;
    var next := if f.index.Some? then e.nextIndex else e.nextIndex + 1;
    var block :=
      if index in e.blocks
      then var b := e.blocks[index]; b.(callId := Or(b.callId, f.id), name := Or(b.name, f.name))
      else Block(f.id, f.name, "");
    var start := if index in e.blocks then [] else [BlockStart(index, f.id, f.name)];
    if Truthy(f.args)
    then Emission(e.(nextIndex := next, blocks := e.blocks[index := block.(args := block.args + f.args.value)]),
                  start + [BlockDelta(index, block.callId, block.name, f.args.value)])
    else Emission(e.(nextIndex := next, blocks := e.blocks[index := block]), start)
  }

  /** One more fragment after everything an emission already did. */
  function Then(before: Emission, f: Fragment): Emission {
    var last := EmitFragment(before.emitter, f);
    Emission(last.emitter, before.frames + last.frames)
  }

  function EmitFragments(e: Emitter, fs: seq<Fragment>): Emission {
    if fs == [] then Emission(e, []) else Then(EmitFragments(e, fs[..|fs| - 1]), fs[|fs| - 1])
  }

  function EmitChunk(e: Emitter, c: Chunk): Emission {
    var start := EmitStart(e);
    var text := EmitText(start.emitter, TextContent(c));
    var blocks := EmitFragments(text.emitter, c.fragments);
    Emission(blocks.emitter, start.frames + text.frames + blocks.frames)
  }

  predicate IsLeast(s: set<int>, least: int) {
    least in s && forall i | i in s :: least <= i
  }

  /** The members of a set in ascending order. */
  function Sorted(s: set<int>): (r: seq<int>)
    ensures forall i :: i in r <==> i in s
    ensures forall i, j :: 0 <= i < j < |r| ==> r[i] < r[j]
  {
    if s == {} then []
    else
      HasLeast(s);
      var least :| least in s && IsLeast(s, least);
      [least] + Sorted(s - {least})
  }

  lemma {:induction false} AnyMember<T>(s: set<T>) returns (x: T)
    requires s != {}
    ensures x in s
  {
    x :| x in s;
  }

  lemma {:induction false} HasLeast(s: set<int>)
    requires s != {}
    ensures exists least :: IsLeast(s, least)
  {
    var x := AnyMember(s);
    if s == {x} {
      assert IsLeast(s, x);
    } else {
      HasLeast(s - {x});
      var y :| IsLeast(s - {x}, y);
      assert forall i | i in s :: i == x || i in s - {x};
      assert IsLeast(s, if x < y then x else y);
    }
  }

  function BlockFinishes(loads: Loads, blocks: map<int, Block>, indices: seq<int>): seq<Frame> {
    if indices == [] then []
    else BlockFinishes(loads, blocks, indices[..|indices| - 1]) + FinishFrames(loads, blocks, indices[|indices| - 1])
  }

  function FinishFrames(loads: Loads, blocks: map<int, Block>, i: int): seq<Frame> {
    if i in blocks
    then [BlockFinish(i, blocks[i].callId, blocks[i].name, ParseArgs(loads, blocks[i].args))] else []
  }

  /** Closing one message: its blocks in ascending index order, then the message. */
  function Finalize(loads: Loads, e: Emitter, usage: Option<Usage>): Emission {
    var final := if usage.Some? then usage else e.usage;
    Emission(e.(finished := true, usage := final),
             BlockFinishes(loads, e.blocks, Sorted(e.blocks.Keys)) + [MessageFinish(final)])
  }

  /** Emitters in the order their messages first appeared. */
  datatype Translator = Translator(loads: Loads, open: seq<Emitter>)

  datatype Output = Output(translator: Translator, frames: seq<Frame>)

  function Find(open: seq<Emitter>, id: string): (at: Option<nat>)
    ensures at.Some? ==> at.value < |open| && open[at.value].id == id
    ensures at.None? ==> forall i :: 0 <= i < |open| ==> open[i].id != id
  {
    if open == [] then None
    else if open[|open| - 1].id == id then Some(|open| - 1)
    else Find(open[..|open| - 1], id)
  }

  function Finished(loads: Loads, e: Emitter): Emission {
    if e.finished then Emission(e, []) else Finalize(loads, e, None)
  }

  function FinishedFrames(loads: Loads, open: seq<Emitter>, n: nat): seq<Frame>
    requires n <= |open|
  {
    if n == 0 then [] else FinishedFrames(loads, open, n - 1) + Finished(loads, open[n - 1]).frames
  }

  /** Finishing every message that is not finished yet, in order. */
  function FinishAll(loads: Loads, open: seq<Emitter>): (seq<Emitter>, seq<Frame>) {
    (seq(|open|, k requires 0 <= k < |open| => Finished(loads, open[k]).emitter),
     FinishedFrames(loads, open, |open|))
  }

  datatype Call = Feed(chunk: Chunk) | FinishMessage(chunk: Chunk) | FinishEvery

  function Apply(t: Translator, call: Call): Output {
    match call
    case Feed(c) =>
      (match RoleOf(c)
       case None => Output(t, [])
       case Some(role) =>
         match Find(t.open, MessageId(c))
         case None =>
           var (closed, frames) := FinishAll(t.loads, t.open);
           var emission := EmitChunk(NewEmitter(MessageId(c), role), c);
           Output(t.(open := closed + [emission.emitter]), frames + emission.frames)
         case Some(at) =>
           if t.open[at].finished then Output(t, [])
           else
             var emission := EmitChunk(t.open[at], c);
             Output(t.(open := t.open[at := emission.emitter]), emission.frames))
    case FinishMessage(c) =>
      (match if Truthy(c.id) then Find(t.open, c.id.value) else None
       case None => Output(t, [])
       case Some(at) =>
         if t.open[at].finished then Output(t, [])
         else
           var final := Finalize(t.loads, t.open[at], c.usage);
           Output(t.(open := t.open[at := final.emitter]), final.frames))
    case FinishEvery =>
      var (closed, frames) := FinishAll(t.loads, t.open);
      Output(t.(open := closed), frames)
  }

  function ApplyAll(t: Translator, calls: seq<Call>): Output {
    if calls == [] then Output(t, [])
    else
      var before := ApplyAll(t, calls[..|calls| - 1]);
      var last := Apply(before.translator, calls[|calls| - 1]);
      Output(last.translator, before.frames + last.frames)
  }
}
