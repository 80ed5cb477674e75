/**
 What a start makes of its caller's config and metadata once the graph is there
 (`RunManager.start` in src/fastapi_agent_protocol/runner.py): dictionaries spread
 into a new one. Spreading anything else raises, with the thread already reserved.
 */
module RunConfigs {
  import opened Options
  import opened Json

  /** The caller's config, empty when it gave none, and its metadata, null when it gave none. */
  datatype Params = Params(config: map<string, Json>, metadata: Json)

  /** A response starts its run with neither. */
  const NO_PARAMS := Params(map[], Null)

  /** The config handed to the graph; `merged` stands in place of the caller's own metadata entry. */
  datatype RunConfig = RunConfig(
    configurable: map<string, Json>, passed: map<string, Json>, merged: Option<map<string, Json>>)

  predicate Falsy(j: Json) {
    match j
    case Null => true
    case Bool(bit) => !bit
    case Number(value) => value == 0.0
    case Str(text) => text == ""
    case Arr(items) => items == []
    case Obj(fields) => fields == []
  }

  /** The dictionary an object is: of equal keys the last counts. */
  function Entries(fields: seq<(string, Json)>): map<string, Json> {
    if fields == [] then map[]
    else Entries(fields[..|fields| - 1])[fields[|fields| - 1].0 := fields[|fields| - 1].1]
  }

  /** `{**base, **j}`: None when `j` is no mapping. */
  function Spread(base: map<string, Json>, j: Json): Option<map<string, Json>> {
    if j.Obj? then Some(base + Entries(j.fields)) else None
  }

  function EntryOr(config: map<string, Json>, key: string, default: Json): Json {
    if key in config then config[key] else default
  }

  /** `config.get("configurable") or {}`, over the thread's id. */
  function Configurable(threadId: string, config: map<string, Json>): Option<map<string, Json>> {
    var own := EntryOr(config, "configurable", Null);
    Spread(map["thread_id" := Str(threadId)], if Falsy(own) then Obj([]) else own)
  }

  /** The caller's metadata over the config's, if there is any of the former. */
  function MergedMetadata(r: Params): Option<Option<map<string, Json>>> {
    if Falsy(r.metadata) then Some(None)
    else match Spread(map[], EntryOr(r.config, "metadata", Obj([])))
      case None => None
      case Some(base) =>
        match Spread(base, r.metadata)
        case None => None
        case Some(merged) => Some(Some(merged))
  }

  /** None when building it raises. */
  function ConfigFor(threadId: string, r: Params): Option<RunConfig> {
    match Configurable(threadId, r.config)
    case None => None
    case Some(configurable) =>
      match MergedMetadata(r)
      case None => None
      case Some(merged) => Some(RunConfig(configurable, r.config - {"configurable"}, merged))
  }

  /** What a caller can check of its request before sending it. */
  predicate Mergeable(r: Params) {
    && ("configurable" in r.config ==> r.config["configurable"].Obj? || Falsy(r.config["configurable"]))
    && (!Falsy(r.metadata) ==> r.metadata.Obj? && ("metadata" in r.config ==> r.config["metadata"].Obj?))
  }

  /** Building the config raises exactly for the other requests. */
  lemma {:induction false} RaisesIffNotMergeable(threadId: string, r: Params)
    ensures ConfigFor(threadId, r).Some? <==> Mergeable(r)
  {
    assert Falsy(Null);
  }

  lemma {:induction false} EntriesFrom(fields: seq<(string, Json)>, key: string)
    ensures key in Entries(fields) <==> exists i :: 0 <= i < |fields| && fields[i].0 == key
  {
    if fields != [] && fields[|fields| - 1].0 != key {
      EntriesFrom(fields[..|fields| - 1], key);
      assert forall i :: 0 <= i < |fields| - 1 ==> fields[..|fields| - 1][i] == fields[i];
    }
  }

  lemma {:induction false} LastEntryCounts(fields: seq<(string, Json)>, i: nat)
    requires i < |fields| && forall j :: i < j < |fields| ==> fields[j].0 != fields[i].0
    ensures fields[i].0 in Entries(fields) && Entries(fields)[fields[i].0] == fields[i].1
  {
    if i < |fields| - 1 { LastEntryCounts(fields[..|fields| - 1], i); }
  }

  /** The values a caller may send to mean nothing. */
  predicate MeansNothing(j: Json) {
    j == Null || j == Bool(false) || j == Number(0.0) || j == Str("") || j == Arr([]) || j == Obj([])
  }

  /** A merge can fail only over a value that is no object and does not mean nothing. */
  lemma {:induction false} OnlyObjectsOrNothing(threadId: string, j: Json)
    ensures ConfigFor(threadId, Params(map["configurable" := j], Null)).Some? <==> j.Obj? || MeansNothing(j)
    ensures ConfigFor(threadId, Params(map[], j)).Some? <==> j.Obj? || MeansNothing(j)
    ensures ConfigFor(threadId, Params(map[], j)).Some? ==>
              (ConfigFor(threadId, Params(map[], j)).value.merged.None? <==> MeansNothing(j))
  {
    assert Falsy(j) <==> MeansNothing(j);
    assert EntryOr(map["configurable" := j], "configurable", Null) == j;
  }

  /**
   The configurable part has the thread's id, which the caller's own entry
   replaces, and every other own entry; what else the caller configured is
   passed on as it is.
   */
  lemma {:induction false} ConfigHasThreadId(threadId: string, r: Params, key: string)
    requires ConfigFor(threadId, r).Some?
    ensures var config := ConfigFor(threadId, r).value;
      var own := if "configurable" in r.config && r.config["configurable"].Obj?
                 then Entries(r.config["configurable"].fields) else map[];
      && "thread_id" in config.configurable
      && config.configurable["thread_id"] == (if "thread_id" in own then own["thread_id"] else Str(threadId))
      && (key in config.configurable <==> key == "thread_id" || key in own)
      && (key in own ==> config.configurable[key] == own[key])
      && (key in config.passed <==> key in r.config && key != "configurable")
      && (key in config.passed ==> config.passed[key] == r.config[key])
  {
    assert Falsy(Null) && Entries([]) == map[];
  }

  /** Of a key in both, the caller's metadata wins; no other key appears. */
  lemma {:induction false} CallerWins(threadId: string, r: Params, key: string)
    requires ConfigFor(threadId, r).Some? && !Falsy(r.metadata)
    ensures var merged := ConfigFor(threadId, r).value.merged;
      var own := EntryOr(r.config, "metadata", Obj([]));
      && merged.Some? && r.metadata.Obj? && own.Obj?
      && (key in merged.value <==> key in Entries(r.metadata.fields) || key in Entries(own.fields))
      && (key in Entries(r.metadata.fields) ==> merged.value[key] == Entries(r.metadata.fields)[key])
      && (key in merged.value && key !in Entries(r.metadata.fields) ==> merged.value[key] == Entries(own.fields)[key])
  {
  }
}
