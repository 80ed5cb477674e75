/**
 The translator as the mutable objects the runtime keeps: one emitter object
 per message id and a sink that frames are pushed to
 (src/fastapi_agent_protocol/translation.py). Every method is proved to do to
 the objects what the functions of `Translation` say.
 */
module MutableTranslator {
  import opened Options
  import opened Json
  import opened Translation

  class MessageFrameEmitter {
    const id: string
    const role: string
    var started: bool
    var finished: bool
    var textIndex: Option<int>
    var blocks: map<int, Block>
    var nextIndex: int
    var usage: Option<Usage>

    ghost function View(): Emitter
      reads this
    {
      Emitter(id, role, started, finished, textIndex, blocks, nextIndex, usage)
    }

    constructor (id: string, role: string)
      ensures View() == NewEmitter(id, role)
    {
      this.id, this.role := id, role;
      started, finished, textIndex := false, false, None;
      blocks, nextIndex, usage := map[], 0, None;
    }

    method AllocateIndex() returns (index: int)
      modifies this`nextIndex
      ensures index == old(nextIndex) && nextIndex == old(nextIndex) + 1
    {
      index := nextIndex;
      nextIndex := nextIndex + 1;
    }
  }

  /** The plain text of a chunk's content. */
  method PlainText(c: Chunk) returns (text: string)
    ensures text == TextContent(c)
  {
    match c.content
    case Text(t) => text := t;
    case NoText => text := "";
    case Parts(parts) =>
      text := "";
      for i := 0 to |parts|
        invariant text == JoinParts(parts[..i])
      {
        assert parts[..i + 1][..i] == parts[..i];
        match parts[i]
        case Bare(t) => text := text + t;
        case TextPart(body) => text := text + if body.Some? then body.value else "";
        case OtherPart => assert text + "" == text;
      }
      assert parts[..|parts|] == parts;
  }

  lemma {:induction false} Associative(a: seq<Frame>, b: seq<Frame>, c: seq<Frame>)
    ensures a + b + c == a + (b + c)
  {
  }

  /** The first `i` of `now`, then the rest of `was`. */
  ghost function Spliced(was: seq<Emitter>, now: seq<Emitter>, i: nat): seq<Emitter>
    requires |was| == |now|
  {
    seq(|was|, k requires 0 <= k < |was| => if k < i then now[k] else was[k])
  }

  lemma {:induction false} SplicedStep(was: seq<Emitter>, now: seq<Emitter>, i: nat)
    requires i < |was| == |now|
    ensures Spliced(was, now, i)[i] == was[i]
    ensures Spliced(was, now, i)[i := now[i]] == Spliced(was, now, i + 1)
  {
  }

  lemma {:induction false} SplicedStart(was: seq<Emitter>, now: seq<Emitter>)
    requires |was| == |now|
    ensures Spliced(was, now, 0) == was
  {
  }

  lemma {:induction false} SplicedEnd(was: seq<Emitter>, now: seq<Emitter>, i: nat)
    requires i == |was| == |now|
    ensures Spliced(was, now, i) == now
  {
  }

  class MessagesTranslator {
    const loads: Loads
    var open: seq<MessageFrameEmitter>
    var sink: seq<Frame>
    ghost var state: seq<Emitter>  // the emitters' views, in the order of `open`
    ghost var repr: set<MessageFrameEmitter>

    ghost predicate Valid()
      reads this, repr
    {
      && |state| == |open|
      && (forall k :: 0 <= k < |open| ==> open[k] in repr && open[k].View() == state[k])
      && (forall j, k :: 0 <= j < k < |open| ==> open[j] != open[k])
    }

    ghost function View(): Translator
      reads this
    {
      Translator(loads, state)
    }

    constructor (loads: Loads)
      ensures Valid() && repr == {} && state == [] && sink == [] && this.loads == loads
    {
      this.loads := loads;
      open, sink, state, repr := [], [], [], {};
    }

    method EmitStartFrame(e: MessageFrameEmitter)
      modifies this`sink, e
      ensures var step := EmitStart(old(e.View()));
              e.View() == step.emitter && sink == old(sink) + step.frames
    {
      if e.started {
        return;
      }
      e.started := true;
      sink := sink + [MessageStart(e.role, e.id)];
    }

    method EmitTextDelta(e: MessageFrameEmitter, c: Chunk)
      modifies this`sink, e
      ensures var step := EmitText(old(e.View()), TextContent(c));
              e.View() == step.emitter && sink == old(sink) + step.frames
    {
      var text := PlainText(c);
      if text == "" {
        return;
      }
      if e.textIndex.None? {
        var index := e.AllocateIndex();
        e.textIndex := Some(index);
      }
      sink := sink + [TextDelta(e.textIndex.value, text)];
    }

    method EmitToolCallFragment(e: MessageFrameEmitter, f: Fragment)
      modifies this`sink, e
      ensures var step := EmitFragment(old(e.View()), f);
              e.View() == step.emitter && sink == old(sink) + step.frames
    {
      var index;
      if f.index.Some? {
        index := f.index.value;
      } else {
        index := e.AllocateIndex();
      }
      var state;
      if index in e.blocks {
        state := e.blocks[index].(callId := Or(e.blocks[index].callId, f.id), name := Or(e.blocks[index].name, f.name));
      } else {
        state := Block(f.id, f.name, "");
        sink := sink + [BlockStart(index, state.callId, state.name)];
      }
      if Truthy(f.args) {
        state := state.(args := state.args + f.args.value);
        sink := sink + [BlockDelta(index, state.callId, state.name, f.args.value)];
      }
      e.blocks := e.blocks[index := state];
    }

    method EmitToolCallChunks(e: MessageFrameEmitter, c: Chunk)
      modifies this`sink, e
      ensures var step := EmitFragments(old(e.View()), c.fragments);
              e.View() == step.emitter && sink == old(sink) + step.frames
    {
      var fs := c.fragments;
      for i := 0 to |fs|
        invariant e.View() == EmitFragments(old(e.View()), fs[..i]).emitter
        invariant sink == old(sink) + EmitFragments(old(e.View()), fs[..i]).frames
      {
        EmitToolCallFragment(e, fs[i]);
        assert fs[..i + 1][..i] == fs[..i];
      }
      assert fs[..|fs|] == fs;
    }

    method FinalizeBlocks(e: MessageFrameEmitter)
      modifies this`sink
      ensures sink == old(sink) + BlockFinishes(loads, e.blocks, Sorted(e.blocks.Keys))
    {
      FinalizeInOrder(e, Sorted(e.blocks.Keys));
    }

    method FinalizeInOrder(e: MessageFrameEmitter, indices: seq<int>)
      requires forall i | i in indices :: i in e.blocks
      modifies this`sink
      ensures sink == old(sink) + BlockFinishes(loads, e.blocks, indices)
    {
      for n := 0 to |indices|
        invariant sink == old(sink) + BlockFinishes(loads, e.blocks, indices[..n])
      {
        FinalizeBlock(e, indices[n]);
        assert indices[..n + 1][..n] == indices[..n];
      }
      assert indices[..|indices|] == indices;
    }

    method FinalizeBlock(e: MessageFrameEmitter, i: int)
      requires i in e.blocks
      modifies this`sink
      ensures sink == old(sink) + FinishFrames(loads, e.blocks, i)
    {
      var state := e.blocks[i];
      sink := sink + [BlockFinish(i, state.callId, state.name, ParseArgs(loads, state.args))];
    }

    method FinishOne(e: MessageFrameEmitter, usage: Option<Usage>)
      modifies this`sink, e`usage, e`finished
      ensures e.View() == Finalize(loads, old(e.View()), usage).emitter
      ensures sink == old(sink) + Finalize(loads, old(e.View()), usage).frames
    {
      ghost var blocks := BlockFinishes(loads, e.blocks, Sorted(e.blocks.Keys));
      if usage.Some? {
        e.usage := usage;
      }
      FinalizeBlocks(e);
      Associative(old(sink), blocks, [MessageFinish(e.usage)]);
      sink := sink + [MessageFinish(e.usage)];
      e.finished := true;
    }

    method EmitChunkFrames(e: MessageFrameEmitter, c: Chunk)
      modifies this`sink, e
      ensures var step := EmitChunk(old(e.View()), c);
              e.View() == step.emitter && sink == old(sink) + step.frames
    {
      EmitStartFrame(e);
      EmitTextDelta(e, c);
      EmitToolCallChunks(e, c);
    }

    method ContinueMessage(at: nat, c: Chunk)
      requires Valid() && at < |open|
      modifies this`sink, this`state, open[at]
      ensures Valid()
      ensures state == old(state)[at := EmitChunk(old(state)[at], c).emitter]
      ensures sink == old(sink) + EmitChunk(old(state)[at], c).frames
    {
      EmitChunkFrames(open[at], c);
      state := state[at := open[at].View()];
    }

    method FinishAt(at: nat, usage: Option<Usage>)
      requires Valid() && at < |open|
      modifies this`sink, this`state, open[at]
      ensures Valid()
      ensures state == old(state)[at := Finalize(loads, old(state)[at], usage).emitter]
      ensures sink == old(sink) + Finalize(loads, old(state)[at], usage).frames
    {
      FinishOne(open[at], usage);
      state := state[at := open[at].View()];
    }

    method FinishUnfinished(i: nat, ghost step: Emission)
      requires Valid() && i < |open| && step == Finished(loads, state[i])
      modifies this`sink, this`state, open[i]
      ensures Valid() && state == old(state)[i := step.emitter] && sink == old(sink) + step.frames
    {
      assert open[i].View() == state[i];
      if !open[i].finished {
        FinishAt(i, None);
      }
    }

    /** Finishing everything has dealt with the first `i` messages. */
    ghost predicate FinishedUpTo(i: nat, was: seq<Emitter>, sunk: seq<Frame>)
      reads this, repr
    {
      && Valid() && i <= |open| == |was|
      && state == Spliced(was, FinishAll(loads, was).0, i)
      && sink == sunk + FinishedFrames(loads, was, i)
    }

    lemma {:induction false} NoneFinished()
      requires Valid()
      ensures FinishedUpTo(0, state, sink)
    {
      SplicedStart(state, FinishAll(loads, state).0);
      assert sink + [] == sink;
    }

    lemma {:induction false} AllFinished(was: seq<Emitter>, sunk: seq<Frame>)
      requires FinishedUpTo(|open|, was, sunk)
      ensures Valid() && state == FinishAll(loads, was).0 && sink == sunk + FinishAll(loads, was).1
    {
      SplicedEnd(was, FinishAll(loads, was).0, |open|);
    }

    method FinishNth(i: nat, ghost was: seq<Emitter>, ghost sunk: seq<Frame>)
      requires i < |open| && FinishedUpTo(i, was, sunk)
      modifies this`sink, this`state, open[i]
      ensures FinishedUpTo(i + 1, was, sunk)
    {
      ghost var step := Finished(loads, was[i]);
      SplicedStep(was, FinishAll(loads, was).0, i);
      FinishUnfinished(i, step);
      Associative(sunk, FinishedFrames(loads, was, i), step.frames);
    }

    /** `finish(None)`: every unfinished message, in the order they appeared. */
    method FinishAllOpen()
      requires Valid()
      modifies this`sink, this`state, repr
      ensures Valid()
      ensures state == FinishAll(loads, old(state)).0
      ensures sink == old(sink) + FinishAll(loads, old(state)).1
    {
      ghost var was, sunk := state, sink;
      NoneFinished();
      var i := 0;
      while i < |open|
        invariant FinishedUpTo(i, was, sunk)
      {
        FinishNth(i, was, sunk);
        i := i + 1;
      }
      AllFinished(was, sunk);
    }

    /** The position of a message id in the dict of emitters. */
    method Lookup(id: string) returns (at: Option<nat>)
      requires Valid()
      ensures at == Find(state, id)
    {
      var i := |open|;
      assert state[..i] == state;
      while i > 0
        invariant 0 <= i <= |open|
        invariant Find(state, id) == Find(state[..i], id)
      {
        assert state[..i][..i - 1] == state[..i - 1];
        i := i - 1;
        if open[i].id == id {
          return Some(i);
        }
      }
      return None;
    }

    method AddEmitter(role: string, id: string)
      requires Valid()
      modifies this`open, this`state, this`repr
      ensures Valid() && fresh(repr - old(repr)) && old(repr) <= repr
      ensures state == old(state) + [NewEmitter(id, role)]
    {
      var e := new MessageFrameEmitter(id, role);
      open := open + [e];
      repr := repr + {e};
      state := state + [e.View()];
    }

    /** A brand-new message terminates any still-open ones, then takes its first chunk. */
    method StartMessage(role: string, c: Chunk)
      requires Valid()
      modifies this, repr
      ensures Valid() && fresh(repr - old(repr))
      ensures state == FinishAll(loads, old(state)).0 + [EmitChunk(NewEmitter(MessageId(c), role), c).emitter]
      ensures sink == old(sink) + (FinishAll(loads, old(state)).1
                                   + EmitChunk(NewEmitter(MessageId(c), role), c).frames)
    {
      ghost var out := FinishAll(loads, state);
      ghost var step := EmitChunk(NewEmitter(MessageId(c), role), c);
      FinishAllOpen();
      AddEmitter(role, MessageId(c));
      ContinueMessage(|open| - 1, c);
      assert (out.0 + [NewEmitter(MessageId(c), role)])[|out.0| := step.emitter] == out.0 + [step.emitter];
      Associative(old(sink), out.1, step.frames);
    }

    method Feed(c: Chunk)
      requires Valid()
      modifies this, repr
      ensures Valid() && fresh(repr - old(repr))
      ensures View() == Apply(old(View()), Translation.Feed(c)).translator
      ensures sink == old(sink) + Apply(old(View()), Translation.Feed(c)).frames
    {
      var role := RoleOf(c);
      if role.None? {
        return;
      }
      var at := Lookup(MessageId(c));
      if at.None? {
        StartMessage(role.value, c);
      } else if !open[at.value].finished {
        ContinueMessage(at.value, c);
      }
    }

    method FinishChunk(c: Chunk)
      requires Valid()
      modifies this`sink, this`state, repr
      ensures Valid()
      ensures View() == Apply(old(View()), FinishMessage(c)).translator
      ensures sink == old(sink) + Apply(old(View()), FinishMessage(c)).frames
    {
      if Truthy(c.id) {
        var at := Lookup(c.id.value);
        if at.Some? && !open[at.value].finished {
          FinishAt(at.value, c.usage);
        }
      }
    }

    method Finish(c: Option<Chunk>)
      requires Valid()
      modifies this`sink, this`state, repr
      ensures Valid()
      ensures var call := if c.None? then FinishEvery else FinishMessage(c.value);
              View() == Apply(old(View()), call).translator && sink == old(sink) + Apply(old(View()), call).frames
    {
      if c.None? {
        FinishAllOpen();
      } else {
        FinishChunk(c.value);
      }
    }
  }
}
