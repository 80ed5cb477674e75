/**
 The accumulation of `read_thread_history` in place
 (src/fastapi_agent_protocol/state.py), over list objects. The checkpointer's
 lists are only read; every recorded snapshot is a deep copy, so extending a
 list later changes no snapshot taken earlier.
 */
module Reconstruction {
  import opened Options
  import opened History

  class PyList<T> {
    var items: seq<T>

    constructor (items: seq<T>)
      ensures this.items == items
    {
      this.items := items;
    }

    method Extend(more: seq<T>)
      modifies this
      ensures items == old(items) + more
    {
      items := items + more;
    }
  }

  /** A value as the program holds it: a reference to a list, or one value. */
  datatype Value<T> = ListRef(list: PyList<T>) | Single(item: T)
  datatype PendingWrite<T> = PendingWrite(channel: string, value: Value<T>)
  datatype CheckpointTuple<T> = CheckpointTuple(id: Option<string>, writes: seq<PendingWrite<T>>, metadata: Option<T>)
  datatype Snapshot<T> = Snapshot(id: Option<string>, values: map<string, Value<T>>, metadata: Option<T>)

  ghost function ListsIn<T>(m: map<string, Value<T>>): set<PyList<T>> {
    set c | c in m && m[c].ListRef? :: m[c].list
  }

  /** No two channels share a list. */
  ghost predicate Apart<T>(m: map<string, Value<T>>) {
    forall c, d :: c in m && d in m && c != d && m[c].ListRef? && m[d].ListRef? ==> m[c].list != m[d].list
  }

  ghost function Seen<T>(v: Value<T>): Held<T>
    reads if v.ListRef? then {v.list} else {}
  {
    match v
    case ListRef(list) => Many(list.items)
    case Single(item) => One(item)
  }

  ghost function Contents<T>(m: map<string, Value<T>>): Channels<T>
    reads ListsIn(m)
  {
    map c | c in m :: Seen(m[c])
  }

  ghost function WriteSeen<T>(w: PendingWrite<T>): Write<T>
    reads if w.value.ListRef? then {w.value.list} else {}
  {
    Write(w.channel, Seen(w.value))
  }

  ghost function ListsOf<T>(ws: seq<PendingWrite<T>>): set<PyList<T>> {
    set i | 0 <= i < |ws| && ws[i].value.ListRef? :: ws[i].value.list
  }

  ghost function WritesSeen<T>(ws: seq<PendingWrite<T>>): seq<Write<T>>
    reads ListsOf(ws)
  {
    seq(|ws|, i requires 0 <= i < |ws| reads ListsOf(ws) => WriteSeen(ws[i]))
  }

  /** One pending write; false when it raises. */
  method Accumulate<T>(m: map<string, Value<T>>, w: PendingWrite<T>) returns (ok: bool, m': map<string, Value<T>>)
    requires Apart(m) && (w.value.ListRef? ==> w.value.list !in ListsIn(m))
    modifies ListsIn(m)
    ensures ok <==> ApplyWrite(Some(old(Contents(m))), old(WriteSeen(w))).Some?
    ensures ok ==> Apart(m') && Contents(m') == ApplyWrite(Some(old(Contents(m))), old(WriteSeen(w))).value
    ensures ok ==> fresh(ListsIn(m') - ListsIn(m))
  {
    if Skipped(w.channel) {
      return true, m;
    }
    match w.value
    case Single(item) =>
      return true, m[w.channel := w.value];
    case ListRef(list) =>
      m' := m;
      if w.channel !in m' {  // setdefault
        var empty := new PyList<T>([]);
        m' := m'[w.channel := ListRef(empty)];
      }
      if m'[w.channel].Single? {
        return false, m';
      }
      ghost var before := m'[w.channel].list.items;
      m'[w.channel].list.Extend(list.items);
      assert w.channel !in m ==> before + list.items == list.items;
      ok := true;
  }

  lemma {:induction false} PrefixFails<T>(s: Option<Channels<T>>, ws: seq<Write<T>>, n: nat)
    requires n <= |ws| && Fold(s, ws[..n]).None?
    ensures Fold(s, ws).None?
  {
    FoldConcat(s, ws[..n], ws[n..]);
    FoldFails(ws[n..]);
    assert ws[..n] + ws[n..] == ws;
  }

  /** All pending writes of one checkpoint. */
  method AccumulateAll<T>(m: map<string, Value<T>>, ws: seq<PendingWrite<T>>)
    returns (ok: bool, m': map<string, Value<T>>)
    requires Apart(m) && ListsOf(ws) !! ListsIn(m)
    modifies ListsIn(m)
    ensures ok <==> Fold(Some(old(Contents(m))), old(WritesSeen(ws))).Some?
    ensures ok ==> Apart(m') && Contents(m') == Fold(Some(old(Contents(m))), old(WritesSeen(ws))).value
    ensures ok ==> fresh(ListsIn(m') - ListsIn(m))
  {
    ghost var start, seen := Contents(m), WritesSeen(ws);
    m' := m;
    for n := 0 to |ws|
      invariant Apart(m') && fresh(ListsIn(m') - ListsIn(m))
      invariant WritesSeen(ws) == seen
      invariant Fold(Some(start), seen[..n]) == Some(Contents(m'))
    {
      assert seen[..n + 1][..n] == seen[..n];
      assert WriteSeen(ws[n]) == seen[n];
      assert ws[n].value.ListRef? ==> ws[n].value.list in ListsOf(ws);
      ok, m' := Accumulate(m', ws[n]);
      if !ok {
        PrefixFails(Some(start), seen, n + 1);
        return;
      }
    }
    assert seen[..|ws|] == seen;
    ok := true;
  }

  /** `copy.deepcopy`: the same contents in lists of its own. */
  method DeepCopy<T>(m: map<string, Value<T>>) returns (copy: map<string, Value<T>>)
    ensures fresh(ListsIn(copy)) && Contents(copy) == Contents(m)
  {
    copy := map[];
    var todo := m.Keys;
    while todo != {}
      invariant todo <= m.Keys && copy.Keys == m.Keys - todo
      invariant forall c :: c in copy && copy[c].ListRef? ==> fresh(copy[c].list)
      invariant forall c :: c in copy ==> Seen(copy[c]) == Seen(m[c])
      decreases todo
    {
      var c :| c in todo;
      var value := CopyValue(m[c]);
      copy := copy[c := value];
      todo := todo - {c};
    }
  }

  method CopyValue<T>(v: Value<T>) returns (copy: Value<T>)
    ensures Seen(copy) == Seen(v) && (copy.ListRef? ==> fresh(copy.list))
  {
    match v
    case Single(_) => copy := v;
    case ListRef(list) =>
      var own := new PyList<T>(list.items);
      copy := ListRef(own);
  }

  /** One checkpoint: its writes are accumulated, and what there is now is copied out. */
  method RecordNext<T>(m: map<string, Value<T>>, ws: seq<PendingWrite<T>>)
    returns (ok: bool, m': map<string, Value<T>>, snapshot: map<string, Value<T>>)
    requires Apart(m) && ListsOf(ws) !! ListsIn(m)
    modifies ListsIn(m)
    ensures ok <==> Fold(Some(old(Contents(m))), old(WritesSeen(ws))).Some?
    ensures ok ==>
              && Apart(m') && Contents(m') == Fold(Some(old(Contents(m))), old(WritesSeen(ws))).value
              && Contents(snapshot) == Contents(m')
              && fresh(ListsIn(m') - ListsIn(m)) && fresh(ListsIn(snapshot)) && ListsIn(snapshot) !! ListsIn(m')
  {
    ok, m' := AccumulateAll(m, ws);
    if !ok {
      return false, m', m';
    }
    snapshot := DeepCopy(m');
  }

  // -------------------------------------------------------------- the whole read

  datatype Entry<T> = Entry(id: Option<string>, values: Channels<T>, metadata: Option<T>)

  ghost function AllLists<T>(tuples: seq<CheckpointTuple<T>>): set<PyList<T>> {
    set i, l | 0 <= i < |tuples| && l in ListsOf(tuples[i].writes) :: l
  }

  ghost function TuplesSeen<T>(tuples: seq<CheckpointTuple<T>>): seq<Checkpoint<T>>
    reads AllLists(tuples)
  {
    seq(|tuples|, i requires 0 <= i < |tuples| reads AllLists(tuples) =>
      Checkpoint(tuples[i].id, WritesSeen(tuples[i].writes), tuples[i].metadata))
  }

  /** The entry for position `j` of a checkpointer's list. */
  ghost function EntryAt<T>(seen: seq<Checkpoint<T>>, j: nat): Entry<T>
    requires j < |seen| && StateAt(seen, j).Some?
  {
    Entry(seen[j].id, StateAt(seen, j).value, seen[j].metadata)
  }

  lemma {:induction false} StateStep<T>(seen: seq<Checkpoint<T>>, j: nat)
    requires j < |seen|
    ensures StateAt(seen, j) == Fold(StateAt(seen, j + 1), seen[j].writes)
  {
    FoldConcat(Some(map[]), WritesThrough(seen, j + 1), seen[j].writes);
  }

  lemma {:induction false} FailsFromOn<T>(seen: seq<Checkpoint<T>>, j: nat)
    requires j <= |seen| && StateAt(seen, j).None?
    ensures StateAt(seen, 0).None?
    decreases j
  {
    if j > 0 {
      StateStep(seen, j - 1);
      FoldFails(seen[j - 1].writes);
      FailsFromOn(seen, j - 1);
    }
  }

  /** The snapshots recorded so far, oldest first, in lists nothing else refers to. */
  ghost predicate RecordedAs<T>(
    snapshots: seq<Snapshot<T>>, shots: seq<Channels<T>>, frozen: set<PyList<T>>)
    reads frozen
  {
    && |snapshots| == |shots|
    && forall k :: 0 <= k < |snapshots| ==>
         ListsIn(snapshots[k].values) <= frozen && Contents(snapshots[k].values) == shots[k]
  }

  lemma {:induction false} RecordedNext<T>(
    snapshots: seq<Snapshot<T>>, shots: seq<Channels<T>>, frozen: set<PyList<T>>, next: Snapshot<T>)
    requires RecordedAs(snapshots, shots, frozen)
    ensures RecordedAs(snapshots + [next], shots + [Contents(next.values)], frozen + ListsIn(next.values))
  {
  }

  /** The snapshots from the oldest checkpoint on are the folds up to each of them. */
  ghost predicate Follows<T>(
    tuples: seq<CheckpointTuple<T>>, seen: seq<Checkpoint<T>>, snapshots: seq<Snapshot<T>>, shots: seq<Channels<T>>)
  {
    && |snapshots| == |shots| <= |tuples| == |seen|
    && forall k :: 0 <= k < |snapshots| ==>
         && StateAt(seen, |tuples| - 1 - k) == Some(shots[k])
         && snapshots[k].id == tuples[|tuples| - 1 - k].id
         && snapshots[k].metadata == tuples[|tuples| - 1 - k].metadata
  }

  lemma {:induction false} FollowsNext<T>(
    tuples: seq<CheckpointTuple<T>>, seen: seq<Checkpoint<T>>, snapshots: seq<Snapshot<T>>, shots: seq<Channels<T>>,
    next: Snapshot<T>, shot: Channels<T>)
    requires Follows(tuples, seen, snapshots, shots) && |snapshots| < |tuples|
    requires StateAt(seen, |tuples| - 1 - |snapshots|) == Some(shot)
    requires next.id == tuples[|tuples| - 1 - |snapshots|].id
    requires next.metadata == tuples[|tuples| - 1 - |snapshots|].metadata
    ensures Follows(tuples, seen, snapshots + [next], shots + [shot])
  {
  }

  /** What one round of the accumulation does, at position `i`. */
  method RecordAt<T>(
    tuples: seq<CheckpointTuple<T>>, i: nat, m: map<string, Value<T>>, ghost seen: seq<Checkpoint<T>>)
    returns (ok: bool, m': map<string, Value<T>>, next: Snapshot<T>)
    requires i < |tuples| && seen == TuplesSeen(tuples)
    requires Apart(m) && AllLists(tuples) !! ListsIn(m) && StateAt(seen, i + 1) == Some(Contents(m))
    modifies ListsIn(m)
    ensures ok <==> StateAt(seen, i).Some?
    ensures ok ==>
              && Apart(m') && StateAt(seen, i) == Some(Contents(m')) && Contents(next.values) == Contents(m')
              && next.id == tuples[i].id && next.metadata == tuples[i].metadata
              && fresh(ListsIn(m') - ListsIn(m)) && fresh(ListsIn(next.values)) && ListsIn(next.values) !! ListsIn(m')
  {
    StateStep(seen, i);
    assert seen[i].writes == WritesSeen(tuples[i].writes);
    assert ListsOf(tuples[i].writes) <= AllLists(tuples);
    var snapshot;
    ok, m', snapshot := RecordNext(m, tuples[i].writes);
    next := Snapshot(tuples[i].id, snapshot, tuples[i].metadata);
  }

  /** Oldest to newest; None when a write raises. The checkpointer's own lists are never modified. */
  method Reconstruct<T>(tuples: seq<CheckpointTuple<T>>, ghost seen: seq<Checkpoint<T>>)
    returns (result: Option<seq<Snapshot<T>>>, ghost shots: seq<Channels<T>>, ghost frozen: set<PyList<T>>)
    requires seen == TuplesSeen(tuples)
    ensures fresh(frozen)
    ensures result.Some? <==> StateAt(seen, 0).Some?
    ensures result.Some? ==>
              && |result.value| == |tuples| && Follows(tuples, seen, result.value, shots)
              && RecordedAs(result.value, shots, frozen)
  {
    ghost var lists := AllLists(tuples);
    assert forall l <- lists :: allocated(l);
    var cumulative: map<string, Value<T>> := map[];
    var snapshots: seq<Snapshot<T>> := [];
    shots, frozen := [], {};
    assert Contents(cumulative) == map[];
    for i := |tuples| downto 0
      invariant AllLists(tuples) == lists && lists !! ListsIn(cumulative) && TuplesSeen(tuples) == seen
      invariant Apart(cumulative) && fresh(ListsIn(cumulative)) && StateAt(seen, i) == Some(Contents(cumulative))
      invariant fresh(frozen) && frozen !! ListsIn(cumulative)
      invariant |snapshots| == |tuples| - i && RecordedAs(snapshots, shots, frozen)
      invariant Follows(tuples, seen, snapshots, shots)
    {
      var ok, cumulative', next := RecordAt(tuples, i, cumulative, seen);
      if !ok {
        FailsFromOn(seen, i);
        return None, shots, frozen;
      }
      RecordedNext(snapshots, shots, frozen, next);
      FollowsNext(tuples, seen, snapshots, shots, next, Contents(next.values));
      cumulative, snapshots := cumulative', snapshots + [next];
      shots, frozen := shots + [Contents(next.values)], frozen + ListsIn(next.values);
    }
    result := Some(snapshots);
  }

  /** A snapshot as the response carries it. */
  method Plain<T>(m: map<string, Value<T>>) returns (values: Channels<T>)
    ensures values == Contents(m)
  {
    values := map[];
    var todo := m.Keys;
    while todo != {}
      invariant todo <= m.Keys && values.Keys == m.Keys - todo
      invariant forall c :: c in values ==> values[c] == Seen(m[c])
      decreases todo
    {
      var c :| c in todo;
      match m[c] {
        case Single(item) => values := values[c := One(item)];
        case ListRef(list) => values := values[c := Many(list.items)];
      }
      todo := todo - {c};
    }
  }

  lemma {:induction false} EntryFrom<T>(
    tuples: seq<CheckpointTuple<T>>, seen: seq<Checkpoint<T>>, snapshots: seq<Snapshot<T>>, shots: seq<Channels<T>>, k: nat)
    requires Follows(tuples, seen, snapshots, shots) && k < |snapshots|
    requires forall j :: 0 <= j < |tuples| ==> seen[j].id == tuples[j].id && seen[j].metadata == tuples[j].metadata
    ensures var j := |tuples| - 1 - k;
      StateAt(seen, j).Some? && EntryAt(seen, j) == Entry(snapshots[k].id, shots[k], snapshots[k].metadata)
  {
    var j := |tuples| - 1 - k;
    assert StateAt(seen, j) == Some(shots[k]) && snapshots[k].id == tuples[j].id;
  }

  ghost predicate EntriesAre<T>(entries: seq<Entry<T>>, seen: seq<Checkpoint<T>>) {
    && |entries| <= |seen|
    && forall j :: 0 <= j < |entries| ==> StateAt(seen, j).Some? && entries[j] == EntryAt(seen, j)
  }

  lemma {:induction false} EntriesNext<T>(entries: seq<Entry<T>>, seen: seq<Checkpoint<T>>, e: Entry<T>)
    requires EntriesAre(entries, seen) && |entries| < |seen| && StateAt(seen, |entries|).Some?
    requires e == EntryAt(seen, |entries|)
    ensures EntriesAre(entries + [e], seen)
  {
  }

  /**
   The whole read, newest first. Entry `j` is the fold of every write from the
   oldest checkpoint through `j`, although the lists were extended further
   after its snapshot was taken. Nothing the checkpointer holds is modified,
   and its lists may be shared in any way.
   */
  method ReadHistory<T>(tuples: seq<CheckpointTuple<T>>, ghost seen: seq<Checkpoint<T>>)
    returns (out: Option<seq<Entry<T>>>)
    requires seen == TuplesSeen(tuples)
    ensures out.Some? <==> StateAt(seen, 0).Some?
    ensures out.Some? ==> |out.value| == |tuples| && EntriesAre(out.value, seen)
  {
    assert forall j :: 0 <= j < |tuples| ==> seen[j].id == tuples[j].id && seen[j].metadata == tuples[j].metadata;
    var result, shots, frozen := Reconstruct(tuples, seen);
    if result.None? {
      return None;
    }
    out := NewestFirst(tuples, result.value, seen, shots, frozen);
  }

  method NewestFirst<T>(
    ghost tuples: seq<CheckpointTuple<T>>, snapshots: seq<Snapshot<T>>,
    ghost seen: seq<Checkpoint<T>>, ghost shots: seq<Channels<T>>, ghost frozen: set<PyList<T>>)
    returns (out: Option<seq<Entry<T>>>)
    requires |snapshots| == |tuples| && Follows(tuples, seen, snapshots, shots) && RecordedAs(snapshots, shots, frozen)
    requires forall j :: 0 <= j < |tuples| ==> seen[j].id == tuples[j].id && seen[j].metadata == tuples[j].metadata
    ensures out.Some? && |out.value| == |tuples| && EntriesAre(out.value, seen)
  {
    var entries: seq<Entry<T>> := [];
    for k := |snapshots| downto 0
      invariant |entries| == |snapshots| - k && EntriesAre(entries, seen)
    {
      var values := Plain(snapshots[k].values);
      var entry := Entry(snapshots[k].id, values, snapshots[k].metadata);
      EntryFrom(tuples, seen, snapshots, shots, k);
      EntriesNext(entries, seen, entry);
      entries := entries + [entry];
    }
    out := Some(entries);
  }
}
