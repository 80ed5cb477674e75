/** Coercion of state values for the wire (`_to_jsonable` in src/fastapi_agent_protocol/state.py). */
module Jsonable {
  import opened Options

  datatype Field = Field(name: string, value: PyValue)

  /** The shapes the coercion tells apart; sets and tuples are listed in iteration order. */
  datatype PyValue =
    | None_
    | Bool(bit: bool)
    | Number(value: real)
    | Text(text: string)
    | Dict(entries: seq<Field>)
    | List(items: seq<PyValue>)
    | TupleOrSet(members: seq<PyValue>)
    | Instance(attributes: seq<Field>)
    | Foreign(repr: string)

  predicate Private(name: string) { "_" <= name }

  function ToJsonable(v: PyValue): PyValue {
    match v
    case Dict(entries) => Dict(Fields(entries, true))
    case List(items) => List(seq(|items|, i requires 0 <= i < |items| => ToJsonable(items[i])))
    case TupleOrSet(members) => List(seq(|members|, i requires 0 <= i < |members| => ToJsonable(members[i])))
    case Instance(attributes) => Dict(Fields(attributes, false))
    case Foreign(repr) => Text(repr)
    case _ => v
  }

  function Fields(fs: seq<Field>, keepPrivate: bool): seq<Field> {
    if fs == [] then []
    else
      var last := fs[|fs| - 1];
      Fields(fs[..|fs| - 1], keepPrivate) +
      if !keepPrivate && Private(last.name) then [] else [Field(last.name, ToJsonable(last.value))]
  }

  /** Only what JSON has: no tuples, sets, instances or foreign values, at any depth. */
  predicate IsJson(v: PyValue) {
    match v
    case Dict(entries) => forall i :: 0 <= i < |entries| ==> IsJson(entries[i].value)
    case List(items) => forall i :: 0 <= i < |items| ==> IsJson(items[i])
    case TupleOrSet(_) => false
    case Instance(_) => false
    case Foreign(_) => false
    case _ => true
  }

  lemma {:induction false} FieldsAreJson(fs: seq<Field>, keepPrivate: bool)
    ensures forall i :: 0 <= i < |Fields(fs, keepPrivate)| ==> IsJson(Fields(fs, keepPrivate)[i].value)
  {
    if fs != [] {
      FieldsAreJson(fs[..|fs| - 1], keepPrivate);
      Coerced(fs[|fs| - 1].value);
    }
  }

  /** Whatever goes in, JSON comes out. */
  lemma {:induction false} Coerced(v: PyValue)
    ensures IsJson(ToJsonable(v))
  {
    match v
    case Dict(entries) => FieldsAreJson(entries, true);
    case Instance(attributes) => FieldsAreJson(attributes, false);
    case List(items) => forall i | 0 <= i < |items| { Coerced(items[i]); }
    case TupleOrSet(members) => forall i | 0 <= i < |members| { Coerced(members[i]); }
    case _ =>
  }

  lemma {:induction false} JsonFieldsKept(fs: seq<Field>)
    requires forall i :: 0 <= i < |fs| ==> IsJson(fs[i].value)
    ensures Fields(fs, true) == fs
  {
    if fs != [] {
      JsonFieldsKept(fs[..|fs| - 1]);
      JsonKept(fs[|fs| - 1].value);
    }
  }

  lemma {:induction false} JsonKept(v: PyValue)
    requires IsJson(v)
    ensures ToJsonable(v) == v
  {
    match v
    case Dict(entries) => JsonFieldsKept(entries);
    case List(items) => forall i | 0 <= i < |items| ensures ToJsonable(items[i]) == items[i] { JsonKept(items[i]); }
    case _ =>
  }

  /** The coercion leaves alone exactly what is JSON already, so coercing twice is coercing once. */
  lemma {:induction false} FixedIffJson(v: PyValue)
    ensures ToJsonable(v) == v <==> IsJson(v)
    ensures ToJsonable(ToJsonable(v)) == ToJsonable(v)
  {
    Coerced(v);
    JsonKept(ToJsonable(v));
    if IsJson(v) { JsonKept(v); }
  }

  // ------------------------------------------------------------ what is kept

  datatype Key = Position(i: nat) | Name(name: string)

  /** What a reader sees of a value at one place: nothing, a leaf, or a container's outline. */
  datatype View = Nothing | Leaf(leaf: PyValue) | Sequence(length: nat) | Mapping(names: seq<string>)

  predicate Hidden(name: string) { name != "" && name[0] == '_' }

  function NamesOf(fs: seq<Field>, all: bool): seq<string> {
    if fs == [] then []
    else
      var last := fs[|fs| - 1];
      NamesOf(fs[..|fs| - 1], all) + if all || !Hidden(last.name) then [last.name] else []
  }

  function Find(fs: seq<Field>, name: string): Option<PyValue> {
    if fs == [] then None
    else if fs[|fs| - 1].name == name then Some(fs[|fs| - 1].value)
    else Find(fs[..|fs| - 1], name)
  }

  function Outline(v: PyValue): View {
    match v
    case Dict(entries) => Mapping(NamesOf(entries, true))
    case Instance(attributes) => Mapping(NamesOf(attributes, false))
    case List(items) => Sequence(|items|)
    case TupleOrSet(members) => Sequence(|members|)
    case Foreign(repr) => Leaf(Text(repr))
    case leaf => Leaf(leaf)
  }

  function Child(v: PyValue, key: Key): Option<PyValue> {
    match (v, key)
    case (Dict(entries), Name(name)) => Find(entries, name)
    case (Instance(attributes), Name(name)) => if Hidden(name) then None else Find(attributes, name)
    case (List(items), Position(i)) => if i < |items| then Some(items[i]) else None
    case (TupleOrSet(members), Position(i)) => if i < |members| then Some(members[i]) else None
    case _ => None
  }

  /** What is seen at the end of a path of positions and names. */
  function Seen(v: PyValue, path: seq<Key>): View
    decreases |path|
  {
    if path == [] then Outline(v)
    else match Child(v, path[0])
         case Some(child) => Seen(child, path[1..])
         case None => Nothing
  }

  function CoercedIfThere(v: Option<PyValue>): Option<PyValue> {
    match v
    case Some(x) => Some(ToJsonable(x))
    case None => None
  }

  lemma {:induction false} NamesKept(fs: seq<Field>, all: bool)
    ensures NamesOf(Fields(fs, all), true) == NamesOf(fs, all)
  {
    if fs != [] {
      var init, last := fs[..|fs| - 1], fs[|fs| - 1];
      NamesKept(init, all);
      if all || !Hidden(last.name) {
        assert Fields(fs, all)[..|Fields(init, all)|] == Fields(init, all);
      } else {
        assert Fields(fs, all) == Fields(init, all);
      }
    }
  }

  lemma {:induction false} FoundKept(fs: seq<Field>, all: bool, name: string)
    ensures Find(Fields(fs, all), name) ==
            if all || !Hidden(name) then CoercedIfThere(Find(fs, name)) else None
  {
    if fs != [] {
      var init, last := fs[..|fs| - 1], fs[|fs| - 1];
      FoundKept(init, all, name);
      if all || !Hidden(last.name) {
        assert Fields(fs, all)[..|Fields(init, all)|] == Fields(init, all);
      } else {
        assert Fields(fs, all) == Fields(init, all);
      }
    }
  }

  lemma {:induction false} OutlineKept(v: PyValue)
    ensures Outline(ToJsonable(v)) == Outline(v)
  {
    match v
    case Dict(entries) => NamesKept(entries, true);
    case Instance(attributes) => NamesKept(attributes, false);
    case _ =>
  }

  lemma {:induction false} ChildKept(v: PyValue, key: Key)
    ensures Child(ToJsonable(v), key) == CoercedIfThere(Child(v, key))
  {
    match (v, key)
    case (Dict(entries), Name(name)) => FoundKept(entries, true, name);
    case (Instance(attributes), Name(name)) => FoundKept(attributes, false, name);
    case _ =>
  }

  /**
   Along every path the coerced value shows what the value shows: lists, tuples
   and sets their members in place, dicts their entries, instances their public
   attributes in order under their own names, foreign values their text.
   */
  lemma {:induction false} SeenEverywhere(v: PyValue, path: seq<Key>)
    ensures Seen(ToJsonable(v), path) == Seen(v, path)
    decreases |path|
  {
    if path == [] {
      OutlineKept(v);
    } else {
      ChildKept(v, path[0]);
      if Child(v, path[0]).Some? { SeenEverywhere(Child(v, path[0]).value, path[1..]); }
    }
  }
}
