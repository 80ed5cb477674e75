/**
 The client's side of the message channel: a strict reader that sees only the
 frames. Frames other than `MessageStart` carry no message id, so it can only
 attribute them to the message it is inside; it rejects any frame out of place,
 and so doubles as the grammar of the channel.
 */
module Frames {
  import opened Options
  import opened Json
  import opened Translation

  /** A tool call as last told: every frame of a block carries id and name; its finish also the parsed arguments. */
  datatype ReadBlock = ReadBlock(callId: Option<string>, name: Option<string>, args: string, closed: Option<Json>)

  datatype Reading = Reading(
    id: string, role: string, textIndex: Option<int>, text: string,
    blocks: map<int, ReadBlock>, lastClosed: Option<int>, usage: Option<Usage>, finished: bool)

  /** One frame inside the message being read. */
  function ReadInto(r: Reading, f: Frame): Option<Reading> {
    if r.finished then None
    else match f
      case MessageStart(_, _) => None
      case TextDelta(i, text) =>
        if r.lastClosed.None? && text != "" && (r.textIndex.Some? ==> r.textIndex.value == i)
        then Some(r.(textIndex := Some(i), text := r.text + text)) else None
      case BlockStart(i, callId, name) =>
        if r.lastClosed.None? && i !in r.blocks
        then Some(r.(blocks := r.blocks[i := ReadBlock(callId, name, "", None)])) else None
      case BlockDelta(i, callId, name, args) =>
        if r.lastClosed.None? && args != "" && i in r.blocks
        then Some(r.(blocks := r.blocks[i := ReadBlock(callId, name, r.blocks[i].args + args, r.blocks[i].closed)]))
        else None
      case BlockFinish(i, callId, name, parsed) =>
        if i in r.blocks && r.blocks[i].closed.None? && (r.lastClosed.Some? ==> r.lastClosed.value < i)
        then Some(r.(blocks := r.blocks[i := ReadBlock(callId, name, r.blocks[i].args, Some(parsed))],
                     lastClosed := Some(i)))
        else None
      case MessageFinish(usage) =>
        if forall i | i in r.blocks :: r.blocks[i].closed.Some?
        then Some(r.(usage := usage, finished := true, lastClosed := None)) else None
  }

  predicate Settled(rs: seq<Reading>) {
    rs == [] || rs[|rs| - 1].finished
  }

  function Read(rs: seq<Reading>, f: Frame): Option<seq<Reading>> {
    if f.MessageStart? then
      if Settled(rs) && forall k :: 0 <= k < |rs| ==> rs[k].id != f.id
      then Some(rs + [Reading(f.id, f.role, None, "", map[], None, None, false)]) else None
    else if rs == [] then None
    else match ReadInto(rs[|rs| - 1], f)
      case None => None
      case Some(r) => Some(rs[|rs| - 1 := r])
  }

  function ReadAll(rs: seq<Reading>, fs: seq<Frame>): Option<seq<Reading>> {
    if fs == [] then Some(rs)
    else match ReadAll(rs, fs[..|fs| - 1])
      case None => None
      case Some(before) => Read(before, fs[|fs| - 1])
  }

  function ReadMessage(r: Reading, fs: seq<Frame>): Option<Reading> {
    if fs == [] then Some(r)
    else match ReadMessage(r, fs[..|fs| - 1])
      case None => None
      case Some(before) => ReadInto(before, fs[|fs| - 1])
  }

  lemma {:induction false} ReadAllConcat(rs: seq<Reading>, fs: seq<Frame>, gs: seq<Frame>)
    ensures ReadAll(rs, fs + gs) ==
            match ReadAll(rs, fs) case None => None case Some(mid) => ReadAll(mid, gs)
  {
    if gs == [] {
      assert fs + gs == fs;
    } else {
      ReadAllConcat(rs, fs, gs[..|gs| - 1]);
      assert (fs + gs)[..|fs + gs| - 1] == fs + gs[..|gs| - 1];
    }
  }

  lemma {:induction false} ReadMessageConcat(r: Reading, fs: seq<Frame>, gs: seq<Frame>)
    ensures ReadMessage(r, fs + gs) ==
            match ReadMessage(r, fs) case None => None case Some(mid) => ReadMessage(mid, gs)
  {
    if gs == [] {
      assert fs + gs == fs;
    } else {
      ReadMessageConcat(r, fs, gs[..|gs| - 1]);
      assert (fs + gs)[..|fs + gs| - 1] == fs + gs[..|gs| - 1];
    }
  }

  /** Frames of the message being read touch only that message. */
  lemma {:induction false} ReadInLast(before: seq<Reading>, r: Reading, fs: seq<Frame>)
    requires ReadMessage(r, fs).Some?
    ensures ReadAll(before + [r], fs) == Some(before + [ReadMessage(r, fs).value])
  {
    if fs != [] {
      ReadInLast(before, r, fs[..|fs| - 1]);
      var mid := ReadMessage(r, fs[..|fs| - 1]).value;
      assert (before + [mid])[|before| := ReadMessage(r, fs).value] == before + [ReadMessage(r, fs).value];
    }
  }

  // ------------------------------------------------- the grammar, by position

  lemma {:induction false} ReadPrefix(rs: seq<Reading>, fs: seq<Frame>, k: nat)
    requires k <= |fs| && ReadAll(rs, fs).Some?
    ensures ReadAll(rs, fs[..k]).Some?
  {
    ReadAllConcat(rs, fs[..k], fs[k..]);
    assert fs[..k] + fs[k..] == fs;
  }

  predicate Opens(fs: seq<Frame>, k: nat) { k < |fs| && fs[k].MessageStart? }

  /** A message once started stays listed, and stays open until a finish frame. */
  lemma {:induction false} StartedStays(fs: seq<Frame>, i: nat, j: nat)
    requires i < j <= |fs| && Opens(fs, i) && ReadAll([], fs[..j]).Some?
    ensures var rs := ReadAll([], fs[..j]).value;
      && rs != []
      && (exists k :: 0 <= k < |rs| && rs[k].id == fs[i].id)
      && (Settled(rs) ==> exists m :: i < m < j && fs[m].MessageFinish?)
  {
    assert fs[..j][..j - 1] == fs[..j - 1];
    var rs := ReadAll([], fs[..j]).value;
    if j == i + 1 {
      assert rs[|rs| - 1].id == fs[i].id;
    } else {
      StartedStays(fs, i, j - 1);
      var before := ReadAll([], fs[..j - 1]).value;
      var k :| 0 <= k < |before| && before[k].id == fs[i].id;
      assert rs[k].id == fs[i].id;
    }
  }

  /** Messages never interleave and each id starts at most once. */
  lemma {:induction false} StartsApart(fs: seq<Frame>, i: nat, j: nat)
    requires ReadAll([], fs).Some? && i < j && Opens(fs, i) && Opens(fs, j)
    ensures fs[i].id != fs[j].id
    ensures exists m :: i < m < j && fs[m].MessageFinish?
  {
    ReadPrefix([], fs, j + 1);
    ReadPrefix([], fs, j);
    assert fs[..j + 1][..j] == fs[..j];
    StartedStays(fs, i, j);
  }

  /** Blocks are finished in ascending index order, immediately before their message. */
  lemma {:induction false} FinishesAscend(fs: seq<Frame>, k: nat)
    requires ReadAll([], fs).Some? && k + 1 < |fs| && fs[k].BlockFinish?
    ensures fs[k + 1].MessageFinish? || (fs[k + 1].BlockFinish? && fs[k].index < fs[k + 1].index)
  {
    ReadPrefix([], fs, k + 2);
    assert fs[..k + 2][..k + 1] == fs[..k + 1] && fs[..k + 1][..k] == fs[..k];
  }

  /** `m` starts block `index`, in the same message as position `j`. */
  predicate StartedAt(fs: seq<Frame>, m: nat, j: nat, index: int) {
    && m < j <= |fs| && fs[m].BlockStart? && fs[m].index == index
    && forall n :: m < n < j ==> !fs[n].MessageStart?
  }

  lemma {:induction false} BlocksWereStarted(fs: seq<Frame>, j: nat, index: int)
    requires j <= |fs| && ReadAll([], fs[..j]).Some?
    requires var rs := ReadAll([], fs[..j]).value; rs != [] && index in rs[|rs| - 1].blocks
    ensures exists m :: StartedAt(fs, m, j, index)
  {
    assert fs[..j][..j - 1] == fs[..j - 1];
    var f := fs[j - 1];
    if f.BlockStart? && f.index == index {
      assert StartedAt(fs, j - 1, j, index);
    } else {
      BlocksWereStarted(fs, j - 1, index);
      var m :| StartedAt(fs, m, j - 1, index);
      assert StartedAt(fs, m, j, index);
    }
  }

  /** Every argument delta and every block finish follows its block's one start in the same message. */
  lemma {:induction false} BlockFramesFollowStart(fs: seq<Frame>, k: nat)
    requires ReadAll([], fs).Some? && k < |fs| && (fs[k].BlockDelta? || fs[k].BlockFinish?)
    ensures exists m :: StartedAt(fs, m, k, fs[k].index)
  {
    ReadPrefix([], fs, k + 1);
    assert fs[..k + 1][..k] == fs[..k];
    BlocksWereStarted(fs, k, fs[k].index);
  }

  predicate SameMessage(fs: seq<Frame>, i: nat, j: nat) {
    i < j <= |fs| && forall n :: i < n < j ==> !fs[n].MessageStart?
  }

  /** Within a message a started block stays listed, and a finished one stays finished. */
  lemma {:induction false} BlockStays(fs: seq<Frame>, i: nat, j: nat)
    requires SameMessage(fs, i, j) && (fs[i].BlockStart? || fs[i].BlockFinish?) && ReadAll([], fs[..j]).Some?
    ensures var rs := ReadAll([], fs[..j]).value;
      && rs != [] && fs[i].index in rs[|rs| - 1].blocks
      && (fs[i].BlockFinish? ==> rs[|rs| - 1].blocks[fs[i].index].closed.Some?)
  {
    assert fs[..j][..j - 1] == fs[..j - 1];
    if i + 1 < j {
      BlockStays(fs, i, j - 1);
    }
  }

  /** Within one message each block is started at most once and finished at most once. */
  lemma {:induction false} OneStartOneFinish(fs: seq<Frame>, i: nat, j: nat)
    requires ReadAll([], fs).Some? && j < |fs| && SameMessage(fs, i, j)
    requires (fs[i].BlockStart? && fs[j].BlockStart?) || (fs[i].BlockFinish? && fs[j].BlockFinish?)
    ensures fs[i].index != fs[j].index
  {
    ReadPrefix([], fs, j);
    ReadPrefix([], fs, j + 1);
    assert fs[..j + 1][..j] == fs[..j];
    BlockStays(fs, i, j);
  }

  /** A started block that is finished by now had its finish frame in between. */
  lemma {:induction false} FinishedInBetween(fs: seq<Frame>, i: nat, j: nat)
    requires SameMessage(fs, i, j) && fs[i].BlockStart? && ReadAll([], fs[..j]).Some?
    requires var rs := ReadAll([], fs[..j]).value;
      rs != [] && fs[i].index in rs[|rs| - 1].blocks && rs[|rs| - 1].blocks[fs[i].index].closed.Some?
    ensures exists m :: FinishesBlock(fs, i, m, j)
  {
    assert fs[..j][..j - 1] == fs[..j - 1];
    if i + 1 < j {
      BlockStays(fs, i, j - 1);
      if fs[j - 1].BlockFinish? && fs[j - 1].index == fs[i].index {
        assert FinishesBlock(fs, i, j - 1, j);
      } else {
        FinishedInBetween(fs, i, j - 1);
        var m :| FinishesBlock(fs, i, m, j - 1);
        assert FinishesBlock(fs, i, m, j);
      }
    }
  }

  predicate FinishesBlock(fs: seq<Frame>, i: nat, m: nat, j: nat) {
    i < m < j <= |fs| && fs[i].BlockStart? && fs[m].BlockFinish? && fs[m].index == fs[i].index
  }

  /** Every block started in a message is finished before the message is. */
  lemma {:induction false} EveryBlockFinishes(fs: seq<Frame>, i: nat, j: nat)
    requires ReadAll([], fs).Some? && j < |fs| && SameMessage(fs, i, j)
    requires fs[i].BlockStart? && fs[j].MessageFinish?
    ensures exists m :: FinishesBlock(fs, i, m, j)
  {
    ReadPrefix([], fs, j);
    ReadPrefix([], fs, j + 1);
    assert fs[..j + 1][..j] == fs[..j];
    BlockStays(fs, i, j);
    FinishedInBetween(fs, i, j);
  }
}
