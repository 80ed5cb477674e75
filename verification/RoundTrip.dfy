/**
 What was fed to the translator, said without frames or emitters: a ledger of
 the accepted chunks of each message. The theorem is that a client reading only
 the frames recovers the meaning of the ledger.
 */
module RoundTrip {
  import opened Options
  import opened Json
  import opened Translation
  import opened Frames

  // ------------------------------------------------------- reference meaning

  /** The pieces a chunk contributes, in order: its text if any, then its tool-call fragments. */
  datatype Piece = Spoken(text: string) | Called(fragment: Fragment)

  function CalledPieces(fs: seq<Fragment>): seq<Piece> {
    if fs == [] then [] else CalledPieces(fs[..|fs| - 1]) + [Called(fs[|fs| - 1])]
  }

  function PiecesOf(c: Chunk): seq<Piece> {
    (if TextContent(c) == "" then [] else [Spoken(TextContent(c))]) + CalledPieces(c.fragments)
  }

  function Pieces(cs: seq<Chunk>): seq<Piece> {
    if cs == [] then [] else Pieces(cs[..|cs| - 1]) + PiecesOf(cs[|cs| - 1])
  }

  function SpokenText(ps: seq<Piece>): string {
    if ps == [] then ""
    else SpokenText(ps[..|ps| - 1]) + if ps[|ps| - 1].Spoken? then ps[|ps| - 1].text else ""
  }

  /** The first text piece and each fragment without an index of its own take a fresh index. */
  predicate Allocates(before: seq<Piece>, p: Piece) {
    match p
    case Spoken(_) => forall i :: 0 <= i < |before| ==> before[i].Called?
    case Called(f) => f.index.None?
  }

  /** How many indices have been handed out, which is also the next one. */
  function Allocated(ps: seq<Piece>): nat {
    if ps == [] then 0
    else Allocated(ps[..|ps| - 1]) + if Allocates(ps[..|ps| - 1], ps[|ps| - 1]) then 1 else 0
  }

  function TextIndex(ps: seq<Piece>): Option<int> {
    if ps == [] then None
    else if TextIndex(ps[..|ps| - 1]).Some? then TextIndex(ps[..|ps| - 1])
    else if ps[|ps| - 1].Spoken? then Some(Allocated(ps[..|ps| - 1])) else None
  }

  /** The block a piece belongs to, if it is part of a tool call. */
  function Target(before: seq<Piece>, p: Piece): Option<int> {
    match p
    case Spoken(_) => None
    case Called(f) => if f.index.Some? then f.index else Some(Allocated(before))
  }

  /** The fragments of one tool block, in order. */
  function BlockFragments(ps: seq<Piece>, index: int): seq<Fragment> {
    if ps == [] then []
    else
      BlockFragments(ps[..|ps| - 1], index) +
      if Target(ps[..|ps| - 1], ps[|ps| - 1]) == Some(index) then [ps[|ps| - 1].fragment] else []
  }

  function Touched(ps: seq<Piece>): (indices: set<int>)
    ensures forall i :: i in indices <==> BlockFragments(ps, i) != []
  {
    if ps == [] then {}
    else
      var target := Target(ps[..|ps| - 1], ps[|ps| - 1]);
      Touched(ps[..|ps| - 1]) + if target.Some? then {target.value} else {}
  }

  function JoinArgs(fs: seq<Fragment>): string {
    if fs == [] then ""
    else JoinArgs(fs[..|fs| - 1]) + if fs[|fs| - 1].args.Some? then fs[|fs| - 1].args.value else ""
  }

  /** The first non-empty one; with none, whatever came last. */
  function FirstTruthy(xs: seq<Option<string>>): Option<string> {
    if xs == [] then None
    else if Truthy(xs[0]) || |xs| == 1 then xs[0] else FirstTruthy(xs[1..])
  }

  function Ids(fs: seq<Fragment>): seq<Option<string>> { seq(|fs|, i requires 0 <= i < |fs| => fs[i].id) }
  function Names(fs: seq<Fragment>): seq<Option<string>> { seq(|fs|, i requires 0 <= i < |fs| => fs[i].name) }

  /** The fragments up to the last one that sent a frame: the first, and every one with arguments. */
  function Told(fs: seq<Fragment>): seq<Fragment> {
    if |fs| <= 1 || Truthy(fs[|fs| - 1].args) then fs else Told(fs[..|fs| - 1])
  }

  /** What `Told` leaves out sent nothing, and what it ends with was sent. */
  lemma {:induction false} ToldIsSent(fs: seq<Fragment>)
    ensures Told(fs) <= fs && (fs != [] ==> Told(fs) != [])
    ensures forall i :: |Told(fs)| <= i < |fs| ==> !Truthy(fs[i].args)
    ensures |Told(fs)| > 1 ==> Truthy(Told(fs)[|Told(fs)| - 1].args)
  {
    if |fs| > 1 && !Truthy(fs[|fs| - 1].args) {
      ToldIsSent(fs[..|fs| - 1]);
    }
  }

  /**
   What the client should know about a block: once finished the first non-empty
   id and name of all fragments, before that of those that were told.
   */
  function BlockMeaning(loads: Loads, fs: seq<Fragment>, closed: bool): ReadBlock {
    if closed
    then ReadBlock(FirstTruthy(Ids(fs)), FirstTruthy(Names(fs)), JoinArgs(fs), Some(ParseArgs(loads, JoinArgs(fs))))
    else OpenBlock(fs)
  }

  function OpenBlock(fs: seq<Fragment>): ReadBlock {
    ReadBlock(FirstTruthy(Ids(Told(fs))), FirstTruthy(Names(Told(fs))), JoinArgs(fs), None)
  }

  datatype Entry = Entry(id: string, role: string, chunks: seq<Chunk>, usage: Option<Usage>, closed: bool)

  /** What the client should know about a message. */
  function Meaning(loads: Loads, e: Entry): Reading {
    var ps := Pieces(e.chunks);
    Reading(e.id, e.role, TextIndex(ps), SpokenText(ps),
            ReadBlocksOf(loads, Grouped(ps), e.closed),
            None, e.usage, e.closed)
  }

  function Meanings(loads: Loads, ledger: seq<Entry>): seq<Reading> {
    seq(|ledger|, k requires 0 <= k < |ledger| => Meaning(loads, ledger[k]))
  }

  /** Where a message stands in the ledger. */
  function Position(ledger: seq<Entry>, id: string): (at: Option<nat>)
    ensures at.Some? ==> at.value < |ledger| && ledger[at.value].id == id
    ensures at.None? ==> forall k :: 0 <= k < |ledger| ==> ledger[k].id != id
  {
    if ledger == [] then None
    else if ledger[|ledger| - 1].id == id then Some(|ledger| - 1)
    else Position(ledger[..|ledger| - 1], id)
  }

  /** A new message ends every earlier one. */
  function CloseAll(ledger: seq<Entry>): seq<Entry> {
    seq(|ledger|, k requires 0 <= k < |ledger| => ledger[k].(closed := true))
  }

  /** Which chunks count: those with a known role, until their message is closed. */
  function Enter(ledger: seq<Entry>, call: Call): seq<Entry> {
    match call
    case Feed(c) =>
      (match RoleOf(c)
       case None => ledger
       case Some(role) =>
         match Position(ledger, MessageId(c))
         case None => CloseAll(ledger) + [Entry(MessageId(c), role, [c], None, false)]
         case Some(k) =>
           if ledger[k].closed then ledger
           else ledger[k := ledger[k].(chunks := ledger[k].chunks + [c])])
    case FinishMessage(c) =>
      (match if Truthy(c.id) then Position(ledger, c.id.value) else None
       case None => ledger
       case Some(k) =>
         if ledger[k].closed then ledger else ledger[k := ledger[k].(closed := true, usage := c.usage)])
    case FinishEvery => CloseAll(ledger)
  }

  function Ledger(calls: seq<Call>): seq<Entry> {
    if calls == [] then [] else Enter(Ledger(calls[..|calls| - 1]), calls[|calls| - 1])
  }

  // -------------------------------------------------- one piece of one message

  function BlockOf(fs: seq<Fragment>): Block {
    Block(FirstTruthy(Ids(fs)), FirstTruthy(Names(fs)), JoinArgs(fs))
  }

  /** The fragments of every tool block. */
  function Grouped(ps: seq<Piece>): map<int, seq<Fragment>> {
    map i | i in Touched(ps) :: BlockFragments(ps, i)
  }

  function BlocksOf(groups: map<int, seq<Fragment>>): map<int, Block> {
    map i | i in groups :: BlockOf(groups[i])
  }

  function ReadBlocksOf(loads: Loads, groups: map<int, seq<Fragment>>, closed: bool): map<int, ReadBlock> {
    map i | i in groups :: BlockMeaning(loads, groups[i], closed)
  }

  /** An emitter that has been given exactly these pieces. */
  predicate Tracks(e: Emitter, ps: seq<Piece>) {
    e.textIndex == TextIndex(ps) && e.nextIndex == Allocated(ps) && e.blocks == BlocksOf(Grouped(ps))
  }

  /** A reader that has been told exactly these pieces of a message still open. */
  function KnowsOpen(loads: Loads, id: string, role: string, ps: seq<Piece>): Reading {
    Reading(id, role, TextIndex(ps), SpokenText(ps), ReadBlocksOf(loads, Grouped(ps), false), None, None, false)
  }

  lemma {:induction false} Snoc(ps: seq<Piece>, p: Piece)
    ensures Allocated(ps + [p]) == Allocated(ps) + if Allocates(ps, p) then 1 else 0
    ensures SpokenText(ps + [p]) == SpokenText(ps) + if p.Spoken? then p.text else ""
    ensures TextIndex(ps + [p]) == (if TextIndex(ps).Some? then TextIndex(ps)
                                    else if p.Spoken? then Some(Allocated(ps)) else None)
    ensures Touched(ps + [p]) == Touched(ps) + if Target(ps, p).Some? then {Target(ps, p).value} else {}
  {
    assert (ps + [p])[..|ps|] == ps;
  }

  lemma {:induction false} SnocBlock(ps: seq<Piece>, p: Piece, i: int)
    ensures BlockFragments(ps + [p], i) == BlockFragments(ps, i) + if Target(ps, p) == Some(i) then [p.fragment] else []
  {
    assert (ps + [p])[..|ps|] == ps;
  }

  lemma {:induction false} FirstTruthySnoc(xs: seq<Option<string>>, x: Option<string>)
    ensures FirstTruthy(xs + [x]) == if xs == [] then x else Or(FirstTruthy(xs), x)
  {
    if |xs| > 1 {
      FirstTruthySnoc(xs[1..], x);
      assert (xs + [x])[1..] == xs[1..] + [x];
    } else if |xs| == 1 {
      assert (xs + [x])[1..] == [x];
    }
  }

  lemma {:induction false} BlockSnoc(fs: seq<Fragment>, f: Fragment)
    ensures var b, b' := BlockOf(fs), BlockOf(fs + [f]);
      && b'.args == b.args + (if f.args.Some? then f.args.value else "")
      && b'.callId == (if fs == [] then f.id else Or(b.callId, f.id))
      && b'.name == (if fs == [] then f.name else Or(b.name, f.name))
  {
    assert (fs + [f])[..|fs|] == fs;
    assert Ids(fs + [f]) == Ids(fs) + [f.id] && Names(fs + [f]) == Names(fs) + [f.name];
    FirstTruthySnoc(Ids(fs), f.id);
    FirstTruthySnoc(Names(fs), f.name);
  }

  lemma {:induction false} NoTextYet(ps: seq<Piece>)
    ensures TextIndex(ps).None? <==> forall i :: 0 <= i < |ps| ==> ps[i].Called?
  {
    if ps != [] {
      NoTextYet(ps[..|ps| - 1]);
      assert forall i :: 0 <= i < |ps| - 1 ==> ps[..|ps| - 1][i] == ps[i];
    }
  }

  /** A piece of text leaves every block as it was. */
  lemma {:induction false} GroupedAfterText(ps: seq<Piece>, p: Piece)
    requires p.Spoken?
    ensures Grouped(ps + [p]) == Grouped(ps)
  {
    Snoc(ps, p);
    forall i | i in Touched(ps) ensures BlockFragments(ps + [p], i) == BlockFragments(ps, i) {
      SnocBlock(ps, p, i);
    }
  }

  /** A fragment joins its own block and touches no other. */
  lemma {:induction false} GroupedAfterFragment(ps: seq<Piece>, f: Fragment)
    ensures var i := Target(ps, Called(f)).value;
            Grouped(ps + [Called(f)]) == Grouped(ps)[i := BlockFragments(ps, i) + [f]]
    ensures var i := Target(ps, Called(f)).value;
            BlockFragments(ps, i) == if i in Grouped(ps) then Grouped(ps)[i] else []
  {
    var p := Called(f);
    Snoc(ps, p);
    SnocBlock(ps, p, Target(ps, p).value);
    forall j | j in Touched(ps) && j != Target(ps, p).value
      ensures BlockFragments(ps + [p], j) == BlockFragments(ps, j)
    {
      SnocBlock(ps, p, j);
    }
  }

  lemma {:induction false} BlocksUpdate(groups: map<int, seq<Fragment>>, i: int, fs: seq<Fragment>)
    ensures BlocksOf(groups[i := fs]) == BlocksOf(groups)[i := BlockOf(fs)]
  {
  }

  lemma {:induction false} ReadBlocksUpdate(loads: Loads, groups: map<int, seq<Fragment>>, i: int, fs: seq<Fragment>)
    ensures ReadBlocksOf(loads, groups[i := fs], false) ==
            ReadBlocksOf(loads, groups, false)[i := OpenBlock(fs)]
  {
  }

  lemma {:induction false} OneFrame(r: Reading, f: Frame)
    ensures ReadMessage(r, [f]) == ReadInto(r, f)
  {
    assert [f][..0] == [];
  }

  lemma {:induction false} TextStep(loads: Loads, e: Emitter, id: string, role: string, ps: seq<Piece>, text: string)
    requires Tracks(e, ps) && text != ""
    ensures var step := EmitText(e, text); var ps' := ps + [Spoken(text)];
      && Tracks(step.emitter, ps')
      && ReadMessage(KnowsOpen(loads, id, role, ps), step.frames) == Some(KnowsOpen(loads, id, role, ps'))
  {
    Snoc(ps, Spoken(text));
    NoTextYet(ps);
    GroupedAfterText(ps, Spoken(text));
    OneFrame(KnowsOpen(loads, id, role, ps), EmitText(e, text).frames[0]);
  }

  /** The state and frames of one fragment, given the index it lands on and what was there. */
  lemma {:induction false} FragmentFrames(e: Emitter, f: Fragment, i: int, fs: seq<Fragment>)
    requires i == if f.index.Some? then f.index.value else e.nextIndex
    requires if i in e.blocks then fs != [] && e.blocks[i] == BlockOf(fs) else fs == []
    ensures var step := EmitFragment(e, f); var b := BlockOf(fs + [f]);
      && step.emitter == e.(blocks := e.blocks[i := b], nextIndex := e.nextIndex + if f.index.Some? then 0 else 1)
      && step.frames == (if fs != [] then [] else [BlockStart(i, f.id, f.name)]) +
                        (if Truthy(f.args) then [BlockDelta(i, b.callId, b.name, f.args.value)] else [])
  {
    BlockSnoc(fs, f);
    assert JoinArgs(fs) + "" == JoinArgs(fs);
  }

  /** One more fragment, told or not. */
  lemma {:induction false} OpenBlockSnoc(fs: seq<Fragment>, f: Fragment)
    ensures var b := BlockOf(fs + [f]);
      OpenBlock(fs + [f]) ==
      if fs == [] || Truthy(f.args) then ReadBlock(b.callId, b.name, b.args, None) else OpenBlock(fs)
  {
    BlockSnoc(fs, f);
    assert (fs + [f])[..|fs|] == fs;
    assert JoinArgs(fs) + "" == JoinArgs(fs);
  }

  /** What the frames of one fragment do to a reader. */
  lemma {:induction false} ReadFragment(r: Reading, frames: seq<Frame>, i: int, f: Fragment, fs: seq<Fragment>, b: Block)
    requires r.lastClosed.None? && !r.finished && b == BlockOf(fs + [f])
    requires if i in r.blocks then fs != [] && r.blocks[i] == OpenBlock(fs) else fs == []
    requires frames == (if fs != [] then [] else [BlockStart(i, f.id, f.name)]) +
                       (if Truthy(f.args) then [BlockDelta(i, b.callId, b.name, f.args.value)] else [])
    ensures ReadMessage(r, frames) == Some(r.(blocks := r.blocks[i := OpenBlock(fs + [f])]))
  {
    BlockSnoc(fs, f);
    OpenBlockSnoc(fs, f);
    assert JoinArgs(fs) + "" == JoinArgs(fs);
    if |frames| == 0 {
      assert r.blocks[i := r.blocks[i]] == r.blocks;
    } else if |frames| == 1 {
      assert frames == [frames[0]];
      OneFrame(r, frames[0]);
    } else {
      OneFrame(r, frames[0]);
      assert frames[..1] == [frames[0]];
      assert r.blocks[i := ReadBlock(f.id, f.name, "", None)][i := OpenBlock(fs + [f])]
          == r.blocks[i := OpenBlock(fs + [f])];
    }
  }

  lemma {:induction false} FragmentTracks(e: Emitter, ps: seq<Piece>, f: Fragment)
    requires Tracks(e, ps)
    ensures Tracks(EmitFragment(e, f).emitter, ps + [Called(f)])
  {
    var i := Target(ps, Called(f)).value;
    var fs := BlockFragments(ps, i);
    GroupedAfterFragment(ps, f);
    BlocksUpdate(Grouped(ps), i, fs + [f]);
    Snoc(ps, Called(f));
    FragmentFrames(e, f, i, fs);
  }

  lemma {:induction false} KnowsAfterFragment(loads: Loads, id: string, role: string, ps: seq<Piece>, ps': seq<Piece>, i: int, fs: seq<Fragment>)
    requires TextIndex(ps') == TextIndex(ps) && SpokenText(ps') == SpokenText(ps)
    requires Grouped(ps') == Grouped(ps)[i := fs]
    ensures KnowsOpen(loads, id, role, ps') ==
            KnowsOpen(loads, id, role, ps).(
              blocks := ReadBlocksOf(loads, Grouped(ps), false)[i := OpenBlock(fs)])
  {
    ReadBlocksUpdate(loads, Grouped(ps), i, fs);
  }

  lemma {:induction false} ReadBlockAt(loads: Loads, groups: map<int, seq<Fragment>>, i: int)
    ensures i in ReadBlocksOf(loads, groups, false) <==> i in groups
    ensures i in groups ==> ReadBlocksOf(loads, groups, false)[i] == OpenBlock(groups[i])
  {
  }

  lemma {:induction false} FragmentKnown(loads: Loads, e: Emitter, id: string, role: string, ps: seq<Piece>, f: Fragment)
    requires Tracks(e, ps)
    ensures ReadMessage(KnowsOpen(loads, id, role, ps), EmitFragment(e, f).frames) ==
            Some(KnowsOpen(loads, id, role, ps + [Called(f)]))
  {
    var i := Target(ps, Called(f)).value;
    var fs := BlockFragments(ps, i);
    GroupedAfterFragment(ps, f);
    Snoc(ps, Called(f));
    assert SpokenText(ps) + "" == SpokenText(ps);
    KnowsAfterFragment(loads, id, role, ps, ps + [Called(f)], i, fs + [f]);
    ReadBlockAt(loads, Grouped(ps), i);
    FragmentFrames(e, f, i, fs);
    ReadFragment(KnowsOpen(loads, id, role, ps), EmitFragment(e, f).frames, i, f, fs, BlockOf(fs + [f]));
  }

  // ------------------------------------------------ one chunk, and one closing

  /** The emitter has taken the pieces, and its frames told the reader about them. */
  predicate Conveys(loads: Loads, e: Emitter, ps: seq<Piece>, step: Emission, ps': seq<Piece>) {
    && Tracks(step.emitter, ps')
    && ReadMessage(KnowsOpen(loads, e.id, e.role, ps), step.frames) == Some(KnowsOpen(loads, e.id, e.role, ps'))
  }

  predicate KeepsIdentity(e: Emitter, e': Emitter) {
    e' == e.(textIndex := e'.textIndex, nextIndex := e'.nextIndex, blocks := e'.blocks)
  }

  lemma {:induction false} ConveysThen(loads: Loads, e: Emitter, ps: seq<Piece>, s1: Emission, mid: seq<Piece>, s2: Emission, ps': seq<Piece>)
    requires Conveys(loads, e, ps, s1, mid) && s1.emitter.id == e.id && s1.emitter.role == e.role
    requires Conveys(loads, s1.emitter, mid, s2, ps')
    ensures Conveys(loads, e, ps, Emission(s2.emitter, s1.frames + s2.frames), ps')
  {
    ReadMessageConcat(KnowsOpen(loads, e.id, e.role, ps), s1.frames, s2.frames);
  }

  lemma {:induction false} ConveysNothing(loads: Loads, e: Emitter, ps: seq<Piece>)
    requires Tracks(e, ps)
    ensures Conveys(loads, e, ps, Emission(e, []), ps)
  {
  }

  lemma {:induction false} FragmentConveys(loads: Loads, e: Emitter, ps: seq<Piece>, f: Fragment)
    requires Tracks(e, ps)
    ensures Conveys(loads, e, ps, EmitFragment(e, f), ps + [Called(f)])
    ensures KeepsIdentity(e, EmitFragment(e, f).emitter)
  {
    FragmentTracks(e, ps, f);
    FragmentKnown(loads, e, e.id, e.role, ps, f);
  }

  lemma {:induction false} FragmentsConvey(loads: Loads, e: Emitter, ps: seq<Piece>, fs: seq<Fragment>, ps': seq<Piece>)
    requires Tracks(e, ps) && ps' == ps + CalledPieces(fs)
    ensures Conveys(loads, e, ps, EmitFragments(e, fs), ps')
    ensures KeepsIdentity(e, EmitFragments(e, fs).emitter)
  {
    if fs == [] {
      assert ps' == ps;
      ConveysNothing(loads, e, ps);
    } else {
      var init, f := fs[..|fs| - 1], fs[|fs| - 1];
      var mid := ps + CalledPieces(init);
      FragmentsConvey(loads, e, ps, init, mid);
      assert ps' == mid + [Called(f)];
      OneMoreFragment(loads, e, ps, EmitFragments(e, init), mid, f, ps');
    }
  }

  lemma {:induction false} OneMoreFragment(loads: Loads, e: Emitter, ps: seq<Piece>, before: Emission, mid: seq<Piece>,
                        f: Fragment, ps': seq<Piece>)
    requires Conveys(loads, e, ps, before, mid) && KeepsIdentity(e, before.emitter) && ps' == mid + [Called(f)]
    ensures Conveys(loads, e, ps, Then(before, f), ps') && KeepsIdentity(e, Then(before, f).emitter)
  {
    FragmentConveys(loads, before.emitter, mid, f);
    ConveysThen(loads, e, ps, before, mid, EmitFragment(before.emitter, f), ps');
  }

  lemma {:induction false} TextConveys(loads: Loads, e: Emitter, ps: seq<Piece>, text: string)
    requires Tracks(e, ps)
    ensures Conveys(loads, e, ps, EmitText(e, text), ps + if text == "" then [] else [Spoken(text)])
    ensures KeepsIdentity(e, EmitText(e, text).emitter)
  {
    if text == "" {
      assert ps + [] == ps;
    } else {
      TextStep(loads, e, e.id, e.role, ps, text);
    }
  }

  /** One chunk of a message that has started. */
  lemma {:induction false} ChunkConveys(loads: Loads, e: Emitter, ps: seq<Piece>, c: Chunk, ps': seq<Piece>)
    requires Tracks(e, ps) && e.started && ps' == ps + PiecesOf(c)
    ensures Conveys(loads, e, ps, EmitChunk(e, c), ps')
    ensures KeepsIdentity(e, EmitChunk(e, c).emitter)
  {
    var text := EmitText(e, TextContent(c));
    var mid := ps + if TextContent(c) == "" then [] else [Spoken(TextContent(c))];
    var blocks := EmitFragments(text.emitter, c.fragments);
    TextConveys(loads, e, ps, TextContent(c));
    assert mid + CalledPieces(c.fragments) == ps';
    FragmentsConvey(loads, text.emitter, mid, c.fragments, ps');
    ConveysThen(loads, e, ps, text, mid, blocks, ps');
    assert [] + text.frames + blocks.frames == text.frames + blocks.frames;
  }

  /** The first frames of a message, on top of whatever settled messages came before. */
  lemma {:induction false} FirstFrames(before: seq<Reading>, id: string, role: string, rest: seq<Frame>, r: Reading)
    requires Settled(before) && forall k :: 0 <= k < |before| ==> before[k].id != id
    requires ReadMessage(Reading(id, role, None, "", map[], None, None, false), rest) == Some(r)
    ensures ReadAll(before, [MessageStart(role, id)] + rest) == Some(before + [r])
  {
    var start := [MessageStart(role, id)];
    assert ReadAll(before, start) == Read(before, start[0]);
    ReadAllConcat(before, start, rest);
    ReadInLast(before, Reading(id, role, None, "", map[], None, None, false), rest);
  }

  lemma {:induction false} FirstPieces(loads: Loads, id: string, role: string, c: Chunk)
    ensures var step := EmitChunk(NewEmitter(id, role).(started := true), c);
      && Tracks(step.emitter, PiecesOf(c))
      && KeepsIdentity(NewEmitter(id, role).(started := true), step.emitter)
      && ReadMessage(Reading(id, role, None, "", map[], None, None, false), step.frames) ==
         Some(KnowsOpen(loads, id, role, PiecesOf(c)))
  {
    assert KnowsOpen(loads, id, role, []) == Reading(id, role, None, "", map[], None, None, false);
    ChunkConveys(loads, NewEmitter(id, role).(started := true), [], c, PiecesOf(c));
  }

  lemma {:induction false} FirstChunkConveys(loads: Loads, before: seq<Reading>, id: string, role: string, c: Chunk)
    requires Settled(before) && forall k :: 0 <= k < |before| ==> before[k].id != id
    ensures var step := EmitChunk(NewEmitter(id, role), c);
      && Tracks(step.emitter, PiecesOf(c))
      && KeepsIdentity(NewEmitter(id, role).(started := true), step.emitter)
      && ReadAll(before, step.frames) == Some(before + [KnowsOpen(loads, id, role, PiecesOf(c))])
  {
    FirstPieces(loads, id, role, c);
    StartThenChunk(id, role, c);
    FirstFrames(before, id, role, EmitChunk(NewEmitter(id, role).(started := true), c).frames,
                KnowsOpen(loads, id, role, PiecesOf(c)));
  }

  lemma {:induction false} StartThenChunk(id: string, role: string, c: Chunk)
    ensures var started := NewEmitter(id, role).(started := true);
      EmitChunk(NewEmitter(id, role), c) ==
      Emission(EmitChunk(started, c).emitter, [MessageStart(role, id)] + EmitChunk(started, c).frames)
  {
  }

  function CloseBlock(loads: Loads, b: Block, r: ReadBlock): ReadBlock {
    ReadBlock(b.callId, b.name, r.args, Some(ParseArgs(loads, b.args)))
  }

  function CloseBlocks(loads: Loads, blocks: map<int, Block>, read: map<int, ReadBlock>, indices: seq<int>): map<int, ReadBlock> {
    map i | i in read :: if i in indices && i in blocks then CloseBlock(loads, blocks[i], read[i]) else read[i]
  }

  lemma {:induction false} CloseOneMore(loads: Loads, blocks: map<int, Block>, read: map<int, ReadBlock>, init: seq<int>, i: int)
    requires blocks.Keys == read.Keys && i in blocks && i !in init
    requires read[i].closed.None?
    ensures var closed := CloseBlocks(loads, blocks, read, init);
      && i in closed && closed[i].closed.None?
      && closed[i := CloseBlock(loads, blocks[i], closed[i])] == CloseBlocks(loads, blocks, read, init + [i])
  {
  }

  lemma {:induction false} FinishesRead(loads: Loads, blocks: map<int, Block>, r: Reading, indices: seq<int>)
    requires !r.finished && r.lastClosed.None? && blocks.Keys == r.blocks.Keys
    requires forall i | i in r.blocks :: r.blocks[i].closed.None?
    requires forall k :: 0 <= k < |indices| ==> indices[k] in blocks
    requires forall j, k :: 0 <= j < k < |indices| ==> indices[j] < indices[k]
    ensures ReadMessage(r, BlockFinishes(loads, blocks, indices)) == Some(AfterFinishes(loads, blocks, r, indices))
  {
    if indices == [] {
      assert CloseBlocks(loads, blocks, r.blocks, indices) == r.blocks;
    } else {
      var init, i := indices[..|indices| - 1], indices[|indices| - 1];
      FinishesRead(loads, blocks, r, init);
      assert init + [i] == indices;
      OneMoreFinish(loads, blocks, r, init, i);
      CloseStep(loads, blocks, r, init, i);
    }
  }

  lemma {:induction false} CloseStep(loads: Loads, blocks: map<int, Block>, r: Reading, init: seq<int>, i: int)
    requires !r.finished && blocks.Keys == r.blocks.Keys && i in blocks && r.blocks[i].closed.None?
    requires forall k :: 0 <= k < |init| ==> init[k] < i
    ensures ReadInto(AfterFinishes(loads, blocks, r, init),
                     BlockFinish(i, blocks[i].callId, blocks[i].name, ParseArgs(loads, blocks[i].args)))
         == Some(AfterFinishes(loads, blocks, r, init + [i]))
  {
    CloseOneMore(loads, blocks, r.blocks, init, i);
  }

  function AfterFinishes(loads: Loads, blocks: map<int, Block>, r: Reading, indices: seq<int>): Reading {
    r.(blocks := CloseBlocks(loads, blocks, r.blocks, indices),
       lastClosed := if indices == [] then None else Some(indices[|indices| - 1]))
  }

  lemma {:induction false} OneMoreFinish(loads: Loads, blocks: map<int, Block>, r: Reading, init: seq<int>, i: int)
    requires i in blocks
    ensures ReadMessage(r, BlockFinishes(loads, blocks, init + [i])) ==
            match ReadMessage(r, BlockFinishes(loads, blocks, init))
            case None => None
            case Some(mid) => ReadInto(mid, BlockFinish(i, blocks[i].callId, blocks[i].name, ParseArgs(loads, blocks[i].args)))
  {
    assert (init + [i])[..|init|] == init;
    var finishes := BlockFinishes(loads, blocks, init);
    var last := BlockFinish(i, blocks[i].callId, blocks[i].name, ParseArgs(loads, blocks[i].args));
    assert (finishes + [last])[..|finishes|] == finishes;
  }

  lemma {:induction false} ClosedGroups(loads: Loads, groups: map<int, seq<Fragment>>, indices: seq<int>)
    requires forall i :: i in indices <==> i in groups
    ensures CloseBlocks(loads, BlocksOf(groups), ReadBlocksOf(loads, groups, false), indices)
         == ReadBlocksOf(loads, groups, true)
  {
    var a := CloseBlocks(loads, BlocksOf(groups), ReadBlocksOf(loads, groups, false), indices);
    forall i | i in groups ensures i in a && a[i] == ReadBlocksOf(loads, groups, true)[i] {
      assert i in indices;
    }
  }

  lemma {:induction false} ReadFinish(r: Reading, finishes: seq<Frame>, mid: Reading, usage: Option<Usage>)
    requires ReadMessage(r, finishes) == Some(mid) && !mid.finished
    requires forall i | i in mid.blocks :: mid.blocks[i].closed.Some?
    ensures ReadMessage(r, finishes + [MessageFinish(usage)]) ==
            Some(mid.(usage := usage, finished := true, lastClosed := None))
  {
    assert (finishes + [MessageFinish(usage)])[..|finishes|] == finishes;
  }

  /** Closing a message tells the reader what each of its tool calls was. */
  lemma {:induction false} FinalizeConveys(loads: Loads, e: Emitter, id: string, role: string, ps: seq<Piece>, usage: Option<Usage>)
    requires Tracks(e, ps) && e.usage.None?
    ensures ReadMessage(KnowsOpen(loads, id, role, ps), Finalize(loads, e, usage).frames) ==
            Some(KnowsOpen(loads, id, role, ps).(blocks := ReadBlocksOf(loads, Grouped(ps), true), usage := usage, finished := true))
  {
    GroupsClose(loads, KnowsOpen(loads, id, role, ps), Grouped(ps), Sorted(BlocksOf(Grouped(ps)).Keys));
    var groups := Grouped(ps);
    var r := KnowsOpen(loads, id, role, ps);
    var indices := Sorted(BlocksOf(groups).Keys);
    ReadFinish(r, BlockFinishes(loads, BlocksOf(groups), indices),
               AfterFinishes(loads, BlocksOf(groups), r, indices), usage);
  }

  lemma {:induction false} GroupsClose(loads: Loads, r: Reading, groups: map<int, seq<Fragment>>, indices: seq<int>)
    requires r.blocks == ReadBlocksOf(loads, groups, false) && !r.finished && r.lastClosed.None?
    requires forall i :: i in indices <==> i in groups
    requires forall j, k :: 0 <= j < k < |indices| ==> indices[j] < indices[k]
    ensures ReadMessage(r, BlockFinishes(loads, BlocksOf(groups), indices)) ==
            Some(AfterFinishes(loads, BlocksOf(groups), r, indices))
    ensures AfterFinishes(loads, BlocksOf(groups), r, indices).blocks == ReadBlocksOf(loads, groups, true)
    ensures forall i | i in groups :: ReadBlocksOf(loads, groups, true)[i].closed.Some?
  {
    forall k | 0 <= k < |indices| ensures indices[k] in BlocksOf(groups) {
      assert indices[k] in indices;
    }
    FinishesRead(loads, BlocksOf(groups), r, indices);
    ClosedGroups(loads, groups, indices);
  }

  // --------------------------------------------------------- whole translators

  predicate EmitterIs(e: Emitter, entry: Entry) {
    && e.id == entry.id && e.role == entry.role && e.started
    && e.finished == entry.closed && e.usage == entry.usage
    && (!entry.closed ==> entry.usage.None?)
    && Tracks(e, Pieces(entry.chunks))
  }

  predicate EmittersAre(open: seq<Emitter>, ledger: seq<Entry>) {
    |open| == |ledger| && forall k :: 0 <= k < |open| ==> EmitterIs(open[k], ledger[k])
  }

  /** At most one message is open, and it is the newest; no id appears twice. */
  predicate Sequential(ledger: seq<Entry>) {
    && (forall k :: 0 <= k < |ledger| - 1 ==> ledger[k].closed)
    && (forall j, k :: 0 <= j < k < |ledger| ==> ledger[j].id != ledger[k].id)
  }

  predicate Related(open: seq<Emitter>, ledger: seq<Entry>) {
    EmittersAre(open, ledger) && Sequential(ledger)
  }

  lemma {:induction false} FinishedIsQuiet(loads: Loads, open: seq<Emitter>, n: nat)
    requires n <= |open| && forall k :: 0 <= k < n ==> open[k].finished
    ensures FinishedFrames(loads, open, n) == []
  {
    if n > 0 {
      FinishedIsQuiet(loads, open, n - 1);
    }
  }

  /** Finishing everything finishes the newest message, if that is the only open one. */
  lemma {:induction false} FinishAllIsLast(loads: Loads, open: seq<Emitter>)
    requires open != [] && forall k :: 0 <= k < |open| - 1 ==> open[k].finished
    ensures var n := |open| - 1; var last := Finished(loads, open[n]);
      FinishAll(loads, open) == (open[n := last.emitter], last.frames)
  {
    var n := |open| - 1;
    FinishedIsQuiet(loads, open, n);
    assert [] + Finished(loads, open[n]).frames == Finished(loads, open[n]).frames;
    assert FinishAll(loads, open).0 == open[n := Finished(loads, open[n]).emitter];
  }

  lemma {:induction false} ReadLast(rs: seq<Reading>, r: Reading, frames: seq<Frame>)
    requires rs != [] && ReadMessage(rs[|rs| - 1], frames) == Some(r)
    ensures ReadAll(rs, frames) == Some(rs[|rs| - 1 := r])
  {
    var n := |rs| - 1;
    ReadInLast(rs[..n], rs[n], frames);
    assert rs[..n] + [rs[n]] == rs;
    assert rs[..n] + [r] == rs[n := r];
  }

  /** A step of the newest message only. */
  lemma {:induction false} LastStep(loads: Loads, open: seq<Emitter>, ledger: seq<Entry>, e: Emitter, entry: Entry, frames: seq<Frame>)
    requires Related(open, ledger) && open != []
    requires EmitterIs(e, entry) && entry.id == ledger[|open| - 1].id
    requires ReadMessage(Meaning(loads, ledger[|open| - 1]), frames) == Some(Meaning(loads, entry))
    ensures Related(open[|open| - 1 := e], ledger[|open| - 1 := entry])
    ensures ReadAll(Meanings(loads, ledger), frames) == Some(Meanings(loads, ledger[|open| - 1 := entry]))
  {
    ReadLast(Meanings(loads, ledger), Meaning(loads, entry), frames);
    MeaningsUpdate(loads, ledger, |open| - 1, entry);
  }

  lemma {:induction false} CloseEmitter(loads: Loads, e: Emitter, entry: Entry, usage: Option<Usage>)
    requires EmitterIs(e, entry) && !entry.closed
    ensures var final := Finalize(loads, e, usage); var entry' := entry.(closed := true, usage := usage);
      && EmitterIs(final.emitter, entry')
      && ReadMessage(Meaning(loads, entry), final.frames) == Some(Meaning(loads, entry'))
  {
    FinalizeConveys(loads, e, entry.id, entry.role, Pieces(entry.chunks), usage);
  }

  /** Closing the newest message, with or without usage figures. */
  lemma {:induction false} CloseLast(loads: Loads, open: seq<Emitter>, ledger: seq<Entry>, usage: Option<Usage>)
    requires Related(open, ledger) && open != [] && !open[|open| - 1].finished
    ensures var n := |open| - 1;
      var final := Finalize(loads, open[n], usage);
      var ledger' := ledger[n := ledger[n].(closed := true, usage := usage)];
      && Related(open[n := final.emitter], ledger')
      && ReadAll(Meanings(loads, ledger), final.frames) == Some(Meanings(loads, ledger'))
  {
    var n := |open| - 1;
    CloseEmitter(loads, open[n], ledger[n], usage);
    LastStep(loads, open, ledger, Finalize(loads, open[n], usage).emitter,
             ledger[n].(closed := true, usage := usage), Finalize(loads, open[n], usage).frames);
  }

  lemma {:induction false} MeaningsUpdate(loads: Loads, ledger: seq<Entry>, k: nat, entry: Entry)
    requires k < |ledger|
    ensures Meanings(loads, ledger)[k := Meaning(loads, entry)] == Meanings(loads, ledger[k := entry])
  {
  }

  /** The emitters seen through ids and finish flags only. */
  predicate Aligned(open: seq<Emitter>, ledger: seq<Entry>) {
    |open| == |ledger| &&
    forall k :: 0 <= k < |open| ==> open[k].id == ledger[k].id && open[k].finished == ledger[k].closed
  }

  lemma {:induction false} AreAligned(open: seq<Emitter>, ledger: seq<Entry>)
    requires Related(open, ledger)
    ensures Aligned(open, ledger)
    ensures forall k :: 0 <= k < |ledger| && !ledger[k].closed ==> ledger[k].usage.None?
  {
    forall k | 0 <= k < |open|
      ensures open[k].id == ledger[k].id && open[k].finished == ledger[k].closed
      ensures !ledger[k].closed ==> ledger[k].usage.None?
    {
      assert EmitterIs(open[k], ledger[k]);
    }
  }

  lemma {:induction false} CloseAllIsLast(ledger: seq<Entry>)
    requires Sequential(ledger)
    requires forall k :: 0 <= k < |ledger| && !ledger[k].closed ==> ledger[k].usage.None?
    ensures CloseAll(ledger) ==
            if ledger == [] || ledger[|ledger| - 1].closed then ledger
            else ledger[|ledger| - 1 := ledger[|ledger| - 1].(closed := true, usage := None)]
  {
  }

  ghost predicate ClosedTogether(loads: Loads, open: seq<Emitter>, ledger: seq<Entry>) {
    && Related(FinishAll(loads, open).0, CloseAll(ledger))
    && ReadAll(Meanings(loads, ledger), FinishAll(loads, open).1) == Some(Meanings(loads, CloseAll(ledger)))
  }

  lemma {:induction false} NothingToClose(loads: Loads, open: seq<Emitter>, ledger: seq<Entry>)
    requires Related(open, ledger) && CloseAll(ledger) == ledger
    requires forall k :: 0 <= k < |open| ==> open[k].finished
    ensures ClosedTogether(loads, open, ledger)
  {
    AllFinished(loads, open);
  }

  lemma {:induction false} LastToClose(loads: Loads, open: seq<Emitter>, ledger: seq<Entry>)
    requires Related(open, ledger) && open != [] && !open[|open| - 1].finished
    requires forall k :: 0 <= k < |open| - 1 ==> open[k].finished
    requires CloseAll(ledger) == ledger[|ledger| - 1 := ledger[|ledger| - 1].(closed := true, usage := None)]
    ensures ClosedTogether(loads, open, ledger)
  {
    FinishAllIsLast(loads, open);
    CloseLast(loads, open, ledger, None);
  }

  lemma {:induction false} CloseEverything(loads: Loads, open: seq<Emitter>, ledger: seq<Entry>)
    requires Related(open, ledger)
    ensures ClosedTogether(loads, open, ledger)
  {
    AreAligned(open, ledger);
    CloseAllIsLast(ledger);
    if open == [] || open[|open| - 1].finished {
      NothingToClose(loads, open, ledger);
    } else {
      LastToClose(loads, open, ledger);
    }
  }

  lemma {:induction false} FindsEntry(open: seq<Emitter>, ledger: seq<Entry>, id: string)
    requires Aligned(open, ledger) && Sequential(ledger)
    ensures Find(open, id) == Position(ledger, id)
    ensures Find(open, id).Some? && !open[Find(open, id).value].finished ==> Find(open, id).value == |open| - 1
  {
  }

  lemma {:induction false} PiecesSnoc(cs: seq<Chunk>, c: Chunk)
    ensures Pieces(cs + [c]) == Pieces(cs) + PiecesOf(c)
  {
    assert (cs + [c])[..|cs|] == cs;
  }

  lemma {:induction false} FeedOpen(loads: Loads, open: seq<Emitter>, ledger: seq<Entry>, c: Chunk)
    requires Related(open, ledger) && open != [] && !open[|open| - 1].finished
    ensures var n := |open| - 1;
      var step := EmitChunk(open[n], c);
      var ledger' := ledger[n := ledger[n].(chunks := ledger[n].chunks + [c])];
      && Related(open[n := step.emitter], ledger')
      && ReadAll(Meanings(loads, ledger), step.frames) == Some(Meanings(loads, ledger'))
  {
    var n := |open| - 1;
    var e, entry := open[n], ledger[n];
    assert EmitterIs(e, entry);
    PiecesSnoc(entry.chunks, c);
    ChunkConveys(loads, e, Pieces(entry.chunks), c, Pieces(entry.chunks + [c]));
    LastStep(loads, open, ledger, EmitChunk(e, c).emitter, entry.(chunks := entry.chunks + [c]), EmitChunk(e, c).frames);
  }

  lemma {:induction false} RelatedSnoc(open: seq<Emitter>, ledger: seq<Entry>, e: Emitter, entry: Entry)
    requires Related(open, ledger) && EmitterIs(e, entry)
    requires forall k :: 0 <= k < |ledger| ==> ledger[k].closed && ledger[k].id != entry.id
    ensures Related(open + [e], ledger + [entry])
  {
  }

  lemma {:induction false} FirstPiecesOf(c: Chunk)
    ensures Pieces([c]) == PiecesOf(c)
  {
    PiecesSnoc([], c);
    assert [] + [c] == [c] && [] + PiecesOf(c) == PiecesOf(c);
  }

  lemma {:induction false} FeedNew(loads: Loads, open: seq<Emitter>, ledger: seq<Entry>, role: string, c: Chunk)
    requires Related(open, ledger)
    requires forall k :: 0 <= k < |ledger| ==> ledger[k].closed && ledger[k].id != MessageId(c)
    ensures var step := EmitChunk(NewEmitter(MessageId(c), role), c);
      var ledger' := ledger + [Entry(MessageId(c), role, [c], None, false)];
      && Related(open + [step.emitter], ledger')
      && ReadAll(Meanings(loads, ledger), step.frames) == Some(Meanings(loads, ledger'))
  {
    var entry := Entry(MessageId(c), role, [c], None, false);
    FirstChunkConveys(loads, Meanings(loads, ledger), MessageId(c), role, c);
    FirstPiecesOf(c);
    RelatedSnoc(open, ledger, EmitChunk(NewEmitter(MessageId(c), role), c).emitter, entry);
    assert Meanings(loads, ledger + [entry]) == Meanings(loads, ledger) + [Meaning(loads, entry)];
  }

  /** A call kept the frames, the emitters and the ledger in step. */
  ghost predicate InStep(t: Translator, ledger: seq<Entry>, out: Output, ledger': seq<Entry>) {
    && out.translator.loads == t.loads
    && Related(out.translator.open, ledger')
    && ReadAll(Meanings(t.loads, ledger), out.frames) == Some(Meanings(t.loads, ledger'))
  }

  lemma {:induction false} FinishRelated(t: Translator, ledger: seq<Entry>, c: Chunk)
    requires Related(t.open, ledger)
    ensures InStep(t, ledger, Apply(t, FinishMessage(c)), Enter(ledger, FinishMessage(c)))
  {
    AreAligned(t.open, ledger);
    if Truthy(c.id) {
      FindsEntry(t.open, ledger, c.id.value);
      if Find(t.open, c.id.value).Some? {
        FinishKnown(t, ledger, Find(t.open, c.id.value).value, c);
      }
    }
  }

  lemma {:induction false} FinishKnown(t: Translator, ledger: seq<Entry>, at: nat, c: Chunk)
    requires Related(t.open, ledger) && Truthy(c.id)
    requires Find(t.open, c.id.value) == Position(ledger, c.id.value) == Some(at)
    requires t.open[at].finished == ledger[at].closed && (!t.open[at].finished ==> at == |t.open| - 1)
    ensures InStep(t, ledger, Apply(t, FinishMessage(c)), Enter(ledger, FinishMessage(c)))
  {
    if !t.open[at].finished {
      CloseLast(t.loads, t.open, ledger, c.usage);
    }
  }

  lemma {:induction false} FeedRelated(t: Translator, ledger: seq<Entry>, c: Chunk)
    requires Related(t.open, ledger)
    ensures InStep(t, ledger, Apply(t, Feed(c)), Enter(ledger, Feed(c)))
  {
    AreAligned(t.open, ledger);
    if RoleOf(c).Some? {
      FindsEntry(t.open, ledger, MessageId(c));
      var at := Find(t.open, MessageId(c));
      if at.None? {
        FeedAfterClose(t, ledger, RoleOf(c).value, c);
      } else {
        FeedToKnown(t, ledger, at.value, c);
      }
    }
  }

  lemma {:induction false} FeedToKnown(t: Translator, ledger: seq<Entry>, at: nat, c: Chunk)
    requires Related(t.open, ledger) && RoleOf(c).Some?
    requires Find(t.open, MessageId(c)) == Position(ledger, MessageId(c)) == Some(at)
    requires t.open[at].finished == ledger[at].closed && (!t.open[at].finished ==> at == |t.open| - 1)
    ensures InStep(t, ledger, Apply(t, Feed(c)), Enter(ledger, Feed(c)))
  {
    if !t.open[at].finished {
      FeedOpen(t.loads, t.open, ledger, c);
    }
  }

  lemma {:induction false} ApplyRelated(t: Translator, ledger: seq<Entry>, call: Call)
    requires Related(t.open, ledger)
    ensures InStep(t, ledger, Apply(t, call), Enter(ledger, call))
  {
    match call
    case FinishEvery => CloseEverything(t.loads, t.open, ledger);
    case FinishMessage(c) => FinishRelated(t, ledger, c);
    case Feed(c) => FeedRelated(t, ledger, c);
  }

  lemma {:induction false} FeedAfterClose(t: Translator, ledger: seq<Entry>, role: string, c: Chunk)
    requires Related(t.open, ledger) && RoleOf(c) == Some(role)
    requires Find(t.open, MessageId(c)).None? && Position(ledger, MessageId(c)).None?
    ensures InStep(t, ledger, Apply(t, Feed(c)), Enter(ledger, Feed(c)))
  {
    var (closed, frames) := FinishAll(t.loads, t.open);
    CloseEverything(t.loads, t.open, ledger);
    FeedNew(t.loads, closed, CloseAll(ledger), role, c);
    ReadAllConcat(Meanings(t.loads, ledger), frames, EmitChunk(NewEmitter(MessageId(c), role), c).frames);
  }

  lemma {:induction false} ApplyAllRelated(loads: Loads, calls: seq<Call>)
    ensures var out := ApplyAll(Translator(loads, []), calls);
      && out.translator.loads == loads
      && Related(out.translator.open, Ledger(calls))
      && ReadAll([], out.frames) == Some(Meanings(loads, Ledger(calls)))
  {
    if calls == [] {
      assert Meanings(loads, []) == [];
    } else {
      var init := calls[..|calls| - 1];
      ApplyAllRelated(loads, init);
      var before := ApplyAll(Translator(loads, []), init);
      ApplyRelated(before.translator, Ledger(init), calls[|calls| - 1]);
      ReadAllConcat([], before.frames, Apply(before.translator, calls[|calls| - 1]).frames);
    }
  }

  /**
   The round trip, for every sequence of calls: the strict reader accepts the
   frames, and what it has read is the meaning of what was fed.
   */
  lemma {:induction false} RoundTrip(loads: Loads, calls: seq<Call>)
    ensures ReadAll([], ApplyAll(Translator(loads, []), calls).frames) == Some(Meanings(loads, Ledger(calls)))
  {
    ApplyAllRelated(loads, calls);
  }

  /** A call that enters nothing sends nothing: a finished id, a repeated finish, an unknown role. */
  lemma {:induction false} NothingEnteredNothingSent(t: Translator, ledger: seq<Entry>, call: Call)
    requires Related(t.open, ledger) && Enter(ledger, call) == ledger
    ensures Apply(t, call) == Output(t, [])
  {
    AreAligned(t.open, ledger);
    match call
    case FinishEvery =>
      AllClosed(ledger);
      AllFinished(t.loads, t.open);
    case FinishMessage(c) => if Truthy(c.id) { FindsEntry(t.open, ledger, c.id.value); }
    case Feed(c) => if RoleOf(c).Some? { FindsEntry(t.open, ledger, MessageId(c)); }
  }

  lemma {:induction false} AllClosed(ledger: seq<Entry>)
    requires CloseAll(ledger) == ledger
    ensures forall k :: 0 <= k < |ledger| ==> ledger[k].closed
  {
    forall k | 0 <= k < |ledger| ensures ledger[k].closed {
      assert CloseAll(ledger)[k].closed;
    }
  }

  lemma {:induction false} AllFinished(loads: Loads, open: seq<Emitter>)
    requires forall k :: 0 <= k < |open| ==> open[k].finished
    ensures FinishAll(loads, open) == (open, [])
  {
    FinishedIsQuiet(loads, open, |open|);
    assert FinishAll(loads, open).0 == open;
  }

  /** In every reachable state at most one message is unfinished, and only the newest can be. */
  lemma {:induction false} AtMostOneUnfinished(loads: Loads, calls: seq<Call>, j: nat, k: nat)
    requires var open := ApplyAll(Translator(loads, []), calls).translator.open;
             j < |open| && k < |open| && !open[j].finished && !open[k].finished
    ensures j == k == |ApplyAll(Translator(loads, []), calls).translator.open| - 1
  {
    ApplyAllRelated(loads, calls);
    AreAligned(ApplyAll(Translator(loads, []), calls).translator.open, Ledger(calls));
  }
}
