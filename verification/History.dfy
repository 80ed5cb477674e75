/**
 History reconstruction (`read_thread_history` in
 src/fastapi_agent_protocol/state.py). The functions say what a sequence of
 pending writes amounts to; `Reconstruction` is the accumulation in place, over
 list objects that may be shared with the checkpointer.
 */
module History {
  import opened Options

  /** What a channel holds: a list that writes extend, or one value that writes replace. */
  datatype Held<T> = Many(items: seq<T>) | One(item: T)
  datatype Write<T> = Write(channel: string, value: Held<T>)
  type Channels<T> = map<string, Held<T>>

  predicate Skipped(channel: string) {
    channel in {"__interrupt__", "__error__", "__resume__"} || "branch:" <= channel
  }

  /** None once a list is written to a channel that holds one value: `extend` raises. */
  function ApplyWrite<T>(s: Option<Channels<T>>, w: Write<T>): Option<Channels<T>> {
    if s.None? || Skipped(w.channel) then s
    else if w.value.One? then Some(s.value[w.channel := w.value])
    else if w.channel !in s.value then Some(s.value[w.channel := w.value])
    else match s.value[w.channel]
      case One(_) => None
      case Many(items) => Some(s.value[w.channel := Many(items + w.value.items)])
  }

  function Fold<T>(s: Option<Channels<T>>, ws: seq<Write<T>>): Option<Channels<T>> {
    if ws == [] then s else ApplyWrite(Fold(s, ws[..|ws| - 1]), ws[|ws| - 1])
  }

  /** A checkpoint tuple; the checkpointer lists them newest first. */
  datatype Checkpoint<T> = Checkpoint(id: Option<string>, writes: seq<Write<T>>, metadata: Option<T>)

  /** All writes from the oldest checkpoint through the one at position `j`, oldest first. */
  function WritesThrough<T>(tuples: seq<Checkpoint<T>>, j: nat): seq<Write<T>>
    requires j <= |tuples|
    decreases |tuples| - j
  {
    if j == |tuples| then [] else WritesThrough(tuples, j + 1) + tuples[j].writes
  }

  function StateAt<T>(tuples: seq<Checkpoint<T>>, j: nat): Option<Channels<T>>
    requires j <= |tuples|
  {
    Fold(Some(map[]), WritesThrough(tuples, j))
  }

  lemma {:induction false} FoldConcat<T>(s: Option<Channels<T>>, ws: seq<Write<T>>, more: seq<Write<T>>)
    ensures Fold(s, ws + more) == Fold(Fold(s, ws), more)
  {
    if more == [] {
      assert ws + more == ws;
    } else {
      FoldConcat(s, ws, more[..|more| - 1]);
      assert (ws + more)[..|ws + more| - 1] == ws + more[..|more| - 1];
    }
  }

  lemma {:induction false} FoldFails<T>(ws: seq<Write<T>>)
    ensures Fold(None, ws) == None
  {
    if ws != [] { FoldFails(ws[..|ws| - 1]); }
  }

  // -------------------------------------------- what the fold amounts to

  predicate WritesTo<T>(w: Write<T>, channel: string) {
    w.channel == channel && !Skipped(channel)
  }

  /** The list items written to a channel, in order. */
  function ListItems<T>(ws: seq<Write<T>>, channel: string): seq<T> {
    if ws == [] then []
    else
      var w := ws[|ws| - 1];
      ListItems(ws[..|ws| - 1], channel) + if WritesTo(w, channel) && w.value.Many? then w.value.items else []
  }

  function LastWrite<T>(ws: seq<Write<T>>, channel: string): Option<Held<T>> {
    if ws == [] then None
    else if WritesTo(ws[|ws| - 1], channel) then Some(ws[|ws| - 1].value)
    else LastWrite(ws[..|ws| - 1], channel)
  }

  /** A list written to a channel after one value was. */
  ghost predicate Clashes<T>(ws: seq<Write<T>>, i: nat, j: nat) {
    && i < j < |ws| && ws[i].channel == ws[j].channel && !Skipped(ws[j].channel)
    && ws[i].value.One? && ws[j].value.Many?
  }

  /** Every channel, in terms of the writes to it alone. */
  ghost predicate Describes<T>(s: Channels<T>, ws: seq<Write<T>>) {
    forall c: string ::
      && (c in s <==> LastWrite(ws, c).Some?)
      && (c in s ==> s[c] == if LastWrite(ws, c).value.One? then LastWrite(ws, c).value else Many(ListItems(ws, c)))
  }

  lemma {:induction false} DescribesNext<T>(s: Channels<T>, ws: seq<Write<T>>, w: Write<T>)
    requires Describes(s, ws) && ApplyWrite(Some(s), w).Some?
    requires forall c: string :: LastWrite(ws, c).None? ==> ListItems(ws, c) == []
    ensures Describes(ApplyWrite(Some(s), w).value, ws + [w])
    ensures forall c: string :: LastWrite(ws + [w], c).None? ==> ListItems(ws + [w], c) == []
  {
    assert (ws + [w])[..|ws|] == ws;
    var s' := ApplyWrite(Some(s), w).value;
    forall c: string
      ensures c in s' <==> LastWrite(ws + [w], c).Some?
      ensures c in s' ==> s'[c] == if LastWrite(ws + [w], c).value.One? then LastWrite(ws + [w], c).value
                                   else Many(ListItems(ws + [w], c))
      ensures LastWrite(ws + [w], c).None? ==> ListItems(ws + [w], c) == []
    {
      if !WritesTo(w, c) {
        assert ListItems(ws, c) + [] == ListItems(ws, c);
      } else if w.value.Many? && c !in s {
        assert [] + w.value.items == w.value.items;
      }
    }
  }

  /**
   The fold, channel by channel: a channel is there exactly when it was written;
   it holds the last single value, or else everything ever listed, in order.
   */
  lemma {:induction false} FoldDescribed<T>(ws: seq<Write<T>>)
    requires Fold(Some(map[]), ws).Some?
    ensures Describes(Fold(Some(map[]), ws).value, ws)
    ensures forall c: string :: LastWrite(ws, c).None? ==> ListItems(ws, c) == []
  {
    if ws != [] {
      var init := ws[..|ws| - 1];
      FoldDescribed(init);
      DescribesNext(Fold(Some(map[]), init).value, init, ws[|ws| - 1]);
      assert init + [ws[|ws| - 1]] == ws;
    }
  }

  lemma {:induction false} LastSingle<T>(ws: seq<Write<T>>, channel: string) returns (i: nat)
    requires LastWrite(ws, channel).Some? && LastWrite(ws, channel).value.One?
    ensures i < |ws| && WritesTo(ws[i], channel) && ws[i].value.One?
  {
    if WritesTo(ws[|ws| - 1], channel) {
      i := |ws| - 1;
    } else {
      i := LastSingle(ws[..|ws| - 1], channel);
    }
  }

  /** Once a single value was written, the channel's last write is single, or a list has clashed with it. */
  lemma {:induction false} SingleStays<T>(ws: seq<Write<T>>, i: nat)
    requires i < |ws| && !Skipped(ws[i].channel) && ws[i].value.One?
    requires forall j, k :: !Clashes(ws, j, k)
    ensures LastWrite(ws, ws[i].channel).Some? && LastWrite(ws, ws[i].channel).value.One?
  {
    if i < |ws| - 1 {
      var init := ws[..|ws| - 1];
      forall j: nat, k: nat ensures !Clashes(init, j, k) {
        assert Clashes(init, j, k) ==> Clashes(ws, j, k);
      }
      SingleStays(init, i);
      assert !Clashes(ws, i, |ws| - 1);
    }
  }

  /** Exactly when the read raises: some list is written to a channel after a single value was. */
  lemma {:induction false} RaisesIffClash<T>(ws: seq<Write<T>>)
    ensures Fold(Some(map[]), ws).None? <==> exists i, j :: Clashes(ws, i, j)
  {
    if ws != [] {
      var init, w := ws[..|ws| - 1], ws[|ws| - 1];
      RaisesIffClash(init);
      if Fold(Some(map[]), init).None? {
        var i, j :| Clashes(init, i, j);
        assert Clashes(ws, i, j);
      } else {
        FoldDescribed(init);
        if Fold(Some(map[]), ws).None? {
          var i := LastSingle(init, w.channel);
          assert Clashes(ws, i, |ws| - 1);
        } else {
          NoClashAtEnd(init, ws);
        }
      }
    }
  }

  lemma {:induction false} NoClashAtEnd<T>(init: seq<Write<T>>, ws: seq<Write<T>>)
    requires ws != [] && init == ws[..|ws| - 1] && Fold(Some(map[]), ws).Some?
    requires forall i, j :: !Clashes(init, i, j)
    ensures forall i, j :: !Clashes(ws, i, j)
  {
    FoldDescribed(init);
    forall i: nat, j: nat ensures !Clashes(ws, i, j) {
      if Clashes(ws, i, j) {
        if j < |ws| - 1 {
          assert Clashes(init, i, j);
        } else {
          SingleStays(init, i);
        }
      }
    }
  }

  /** A channel the read leaves out: one of the three internal ones, or a branch. */
  predicate Internal(channel: string) {
    channel == "__interrupt__" || channel == "__error__" || channel == "__resume__"
    || (|channel| >= 7 && channel[..7] == "branch:")
  }

  lemma {:induction false} LastWriteOf<T>(ws: seq<Write<T>>, c: string)
    ensures LastWrite(ws, c).Some? <==> !Skipped(c) && exists i :: 0 <= i < |ws| && ws[i].channel == c
  {
    if ws != [] && !WritesTo(ws[|ws| - 1], c) {
      LastWriteOf(ws[..|ws| - 1], c);
      assert forall i :: 0 <= i < |ws| - 1 ==> ws[..|ws| - 1][i] == ws[i];
    }
  }

  /** The state has exactly the channels that were written and are not internal. */
  lemma {:induction false} ChannelsAre<T>(ws: seq<Write<T>>, c: string)
    requires Fold(Some(map[]), ws).Some?
    ensures c in Fold(Some(map[]), ws).value <==> !Internal(c) && exists i :: 0 <= i < |ws| && ws[i].channel == c
  {
    FoldDescribed(ws);
    LastWriteOf(ws, c);
    assert Skipped(c) <==> Internal(c) by {
      if Internal(c) && |c| >= 7 && c[..7] == "branch:" {
        assert "branch:" <= c;
      }
    }
  }

  // --------------------------------------------------------- windowed reads

  /** A state read from the newest checkpoints only, against the full one and the state before the window. */
  ghost predicate Windowed<T>(base: Channels<T>, window: Channels<T>, full: Channels<T>) {
    forall c: string ::
      && (c in full <==> c in window || c in base)
      && (c in full && c !in window ==> full[c] == base[c])
      && (c in window && window[c].One? ==> full[c] == window[c])
      && (c in window && window[c].Many? ==>
            && (c in base ==> base[c].Many?)
            && full[c] == Many((if c in base then base[c].items else []) + window[c].items))
  }

  lemma {:induction false} WindowedStep<T>(base: Channels<T>, window: Channels<T>, full: Channels<T>, w: Write<T>)
    requires Windowed(base, window, full) && ApplyWrite(Some(full), w).Some?
    ensures ApplyWrite(Some(window), w).Some?
    ensures Windowed(base, ApplyWrite(Some(window), w).value, ApplyWrite(Some(full), w).value)
  {
    var c := w.channel;
    if !Skipped(c) && w.value.Many? {
      if c in window && window[c].Many? {
        var before := if c in base then base[c].items else [];
        assert before + window[c].items + w.value.items == before + (window[c].items + w.value.items);
      } else if c !in full {
        assert [] + w.value.items == w.value.items;
      }
    }
  }

  lemma {:induction false} WindowedFold<T>(base: Channels<T>, ws: seq<Write<T>>)
    requires Fold(Some(base), ws).Some?
    ensures Fold(Some(map[]), ws).Some?
    ensures Windowed(base, Fold(Some(map[]), ws).value, Fold(Some(base), ws).value)
  {
    if ws != [] {
      WindowedFold(base, ws[..|ws| - 1]);
      WindowedStep(base, Fold(Some(map[]), ws[..|ws| - 1]).value, Fold(Some(base), ws[..|ws| - 1]).value, ws[|ws| - 1]);
    }
  }

  lemma {:induction false} WindowWrites<T>(tuples: seq<Checkpoint<T>>, limit: nat, j: nat)
    requires j <= limit <= |tuples|
    ensures WritesThrough(tuples, j) == WritesThrough(tuples, limit) + WritesThrough(tuples[..limit], j)
    decreases limit - j
  {
    if j == limit {
      assert WritesThrough(tuples, j) + [] == WritesThrough(tuples, j);
    } else {
      WindowWrites(tuples, limit, j + 1);
    }
  }

  /**
   A read limited to the newest checkpoints succeeds when the full one does. It
   agrees on every channel last written a single value inside the window, and
   on list channels gives the part of the full list written inside the window.
   */
  lemma {:induction false} WindowedRead<T>(tuples: seq<Checkpoint<T>>, limit: nat, j: nat)
    requires j <= limit <= |tuples| && StateAt(tuples, j).Some?
    ensures StateAt(tuples[..limit], j).Some? && StateAt(tuples, limit).Some?
    ensures Windowed(StateAt(tuples, limit).value, StateAt(tuples[..limit], j).value, StateAt(tuples, j).value)
  {
    var inside := WritesThrough(tuples[..limit], j);
    WindowWrites(tuples, limit, j);
    FoldConcat(Some(map[]), WritesThrough(tuples, limit), inside);
    if StateAt(tuples, limit).None? {
      FoldFails(inside);
    } else {
      WindowedFold(StateAt(tuples, limit).value, inside);
    }
  }
}
