/**
 The run manager as a step system (src/fastapi_agent_protocol/runner.py and the
 command arms of src/fastapi_agent_protocol/router.py): the code between two
 awaits is one step. Steps of suspended calls, of run tasks, of queued
 done-callbacks and of clients interleave freely on one thread.
 */
module Runs {
  import opened Options
  import opened Json
  import opened Translation
  import opened RunConfigs

  type RunId = nat

  // --------------------------------------------------------------- interrupts

  /** An `__interrupt__` entry, as an object or as a plain dict. */
  datatype InterruptEntry = Object(id: Option<string>, value: Json) | Dict(id: Option<string>, value: Json)
  datatype Snapshot = Snapshot(interrupts: seq<InterruptEntry>, fields: Json)
  datatype Interrupt = Interrupt(id: string, payload: Json)

  /** A missing id becomes the text "None", as `str(None)` does. */
  function InterruptId(e: InterruptEntry): string {
    match e
    case Object(id, _) => if Truthy(id) then id.value else "None"
    case Dict(id, _) => if id.Some? then id.value else "None"
  }

  function InterruptsOf(s: Snapshot): seq<Interrupt> {
    seq(|s.interrupts|, i requires 0 <= i < |s.interrupts| =>
      Interrupt(InterruptId(s.interrupts[i]), s.interrupts[i].value))
  }

  /** The pending map of a thread: payloads by interrupt id, beside the graph to resume with. */
  datatype Pending = Pending(assistant: string, payloads: map<string, Json>) {
    /** Membership in the map; the key of the assistant is a member too. */
    predicate Knows(id: string) { id in payloads || id == "assistant_id" }
  }

  /** Later entries with the same id replace earlier ones. */
  function PayloadsOf(interrupts: seq<Interrupt>): map<string, Json> {
    if interrupts == [] then map[]
    else
      var last := interrupts[|interrupts| - 1];
      PayloadsOf(interrupts[..|interrupts| - 1])[last.id := last.payload]
  }

  // ------------------------------------------------------------------- events

  datatype Status = Started | Running | Completed | Failed(error: string) | Interrupted

  datatype Event =
    | Lifecycle(assistant: string, status: Status)
    | Message(frame: Frame)
    | Values(fields: Json)
    | InputRequested(id: string, payload: Json)

  function Messages(frames: seq<Frame>): seq<Event> {
    seq(|frames|, i requires 0 <= i < |frames| => Message(frames[i]))
  }

  function Requests(interrupts: seq<Interrupt>): seq<Event> {
    seq(|interrupts|, i requires 0 <= i < |interrupts| => InputRequested(interrupts[i].id, interrupts[i].payload))
  }

  lemma {:induction false} EventsAssociate(a: seq<Event>, b: seq<Event>, c: seq<Event>)
    ensures a + b + c == a + (b + c)
  {
  }

  // -------------------------------------------------------------------- tasks

  datatype Ending = Finished | Errored(error: string) | Cancelled | AwaitingInput(interrupts: seq<Interrupt>)
  datatype Stage = Created | NeverRan | Streaming | Ended(ending: Ending)

  /**
   One run task. `body` and `calls` record what its stream produced and which
   translator calls that made; `found` is the number of earlier runs when the
   response that started it found its interrupt in the pending map.
   */
  datatype Task = Task(
    run: RunId, assistant: string, found: Option<nat>,
    stage: Stage, cancelRequested: bool,
    translator: Translator, lastValues: Option<Snapshot>,
    body: seq<Event>, calls: seq<Call>)
  {
    predicate Done() { stage.NeverRan? || stage.Ended? }
  }

  /** Which record `_active` holds: a reservation without a task, or the record of a task. */
  datatype Slot = Reserved(run: RunId) | Occupied(position: nat)

  /** A `start` call suspended in graph resolution; `binds` when the router stores the assistant afterwards. */
  datatype Start = Start(assistant: string, binds: bool, found: Option<nat>, params: Params)

  /**
   Everything one thread owns. `tasks` lists every run task ever created, in
   order; `callbacks` the positions whose done-callback is queued; `abandoned`
   the starts that were cancelled while the graph resolved, or raised after it had.
   */
  datatype Thread = Thread(
    loads: Loads,
    active: Option<Slot>,
    pending: Option<Pending>,
    lastAssistant: Option<string>,
    stored: Option<string>,
    log: seq<Event>,
    resolving: map<RunId, Start>,
    abandoned: set<RunId>,
    tasks: seq<Task>,
    callbacks: set<nat>,
    used: set<RunId>)

  function NewThread(loads: Loads, stored: Option<string>): Thread {
    Thread(loads, None, None, None, stored, [], map[], {}, [], {}, {})
  }

  function NewTask(loads: Loads, run: RunId, assistant: string, found: Option<nat>): Task {
    Task(run, assistant, found, Created, false, Translator(loads, []), None, [], [])
  }

  // -------------------------------------------------------------------- steps

  datatype Step =
    | StartRun(run: RunId, assistant: string, viaRouter: bool, params: Params)
    | Respond(run: RunId, id: string, assistantArg: Option<string>)
    | RouterRespond(run: RunId, id: string, inSnapshot: bool)
    | Resolved(run: RunId)
    | MergeRaised(run: RunId)
    | ResolveFailed(run: RunId)
    | StartCancelled(run: RunId)
    | FirstStep(k: nat)
    | StreamMessage(k: nat, chunk: Chunk)
    | StreamValues(k: nat, snapshot: Snapshot)
    | EndOfStream(k: nat, fallback: Snapshot)
    | CancelDelivered(k: nat)
    | StreamRaised(k: nat, error: string)
    | DoneCallback(k: nat)
    | Cancel(target: Option<RunId>)

  predicate At(t: Thread, k: nat, stage: Stage) {
    k < |t.tasks| && t.tasks[k].stage == stage
  }

  /** The router always puts a configurable object of its own making into the config. */
  predicate StampedByRouter(params: Params) {
    "configurable" in params.config && params.config["configurable"].Obj?
  }

  /** What the environment may do; run ids are fresh and no interrupt uses the reserved key. */
  ghost predicate Enabled(t: Thread, step: Step) {
    match step
    case StartRun(run, assistant, viaRouter, params) =>
      run !in t.used && (viaRouter ==> assistant != "" && StampedByRouter(params))
    case Respond(run, _, _) => run !in t.used
    case RouterRespond(run, _, _) => run !in t.used
    case Resolved(run) => run in t.resolving && Mergeable(t.resolving[run].params)
    case MergeRaised(run) => run in t.resolving && !Mergeable(t.resolving[run].params)
    case ResolveFailed(run) => run in t.resolving
    case StartCancelled(run) => run in t.resolving
    case FirstStep(k) => At(t, k, Created)
    case StreamMessage(k, _) => At(t, k, Streaming)
    case StreamValues(k, _) => At(t, k, Streaming)
    case EndOfStream(k, fallback) =>
      At(t, k, Streaming) && forall i <- Outcome(t.tasks[k], fallback) :: i.id != "assistant_id"
    case CancelDelivered(k) => At(t, k, Streaming)
    case StreamRaised(k, _) => At(t, k, Streaming)
    case DoneCallback(k) => k in t.callbacks
    case Cancel(_) => true
  }

  /** The interrupts of the last streamed values, or of the checkpoint when none were streamed. */
  function Outcome(task: Task, fallback: Snapshot): seq<Interrupt> {
    InterruptsOf(if task.lastValues.Some? then task.lastValues.value else fallback)
  }

  /** The guard of `start`: a reservation or an unfinished task. */
  predicate Busy(t: Thread) {
    match t.active
    case None => false
    case Some(Reserved(_)) => true
    case Some(Occupied(k)) => k < |t.tasks| && !t.tasks[k].Done()
  }

  /** The synchronous part of `start`; a busy thread is left as it is. */
  function Begin(t: Thread, run: RunId, start: Start): Thread {
    if Busy(t) then t
    else t.(active := Some(Reserved(run)), resolving := t.resolving[run := start], used := t.used + {run})
  }

  /** The assistant `respond` resumes with, when it accepts the interrupt id. */
  function ResumeWith(t: Thread, id: string, assistantArg: Option<string>): Option<string> {
    if t.pending.Some? && t.pending.value.Knows(id)
    then Some(if Truthy(assistantArg) then assistantArg.value else t.pending.value.assistant)
    else if t.pending.None? && Truthy(assistantArg) then assistantArg
    else None
  }

  function BeginResume(t: Thread, run: RunId, id: string, assistantArg: Option<string>): Thread {
    match ResumeWith(t, id, assistantArg)
    case None => t
    case Some(assistant) =>
      Begin(t, run, Start(assistant, false, if t.pending.Some? then Some(|t.tasks|) else None, NO_PARAMS))
  }

  function Without<K, V>(m: map<K, V>, k: K): map<K, V> { m - {k} }

  /** The rest of `start` once the graph is there, and of the router's command when it called. */
  function Dispatch(t: Thread, run: RunId): Thread
    requires run in t.resolving
  {
    var start := t.resolving[run];
    t.(resolving := Without(t.resolving, run),
       pending := None,
       tasks := t.tasks + [NewTask(t.loads, run, start.assistant, start.found)],
       lastAssistant := Some(start.assistant),
       active := Some(Occupied(|t.tasks|)),
       stored := if start.binds then Some(start.assistant) else t.stored)
  }

  function Release(t: Thread, run: RunId): Thread {
    t.(resolving := Without(t.resolving, run),
       active := if t.active == Some(Reserved(run)) then None else t.active)
  }

  /** A start that ends where no handler releases its slot: the reservation stays, with nobody to lift it. */
  function Abandon(t: Thread, run: RunId): Thread {
    t.(resolving := Without(t.resolving, run), abandoned := t.abandoned + {run})
  }

  /** A task publishes events and becomes `task'`. */
  function Publish(t: Thread, k: nat, task': Task, events: seq<Event>): Thread
    requires k < |t.tasks|
  {
    t.(log := t.log + events, tasks := t.tasks[k := task'],
       callbacks := if task'.Done() then t.callbacks + {k} else t.callbacks)
  }

  /** What a translator call adds to a task. */
  function Called(task: Task, call: Call): (Task, seq<Event>) {
    var out := Apply(task.translator, call);
    (task.(translator := out.translator, calls := task.calls + [call], body := task.body + Messages(out.frames)),
     Messages(out.frames))
  }

  function Fed(task: Task, c: Chunk): (Task, seq<Event>) {
    var (fed, events) := Called(task, Feed(c));
    if c.usage.None? then (fed, events)
    else var (finished, more) := Called(fed, FinishMessage(c)); (finished, events + more)
  }

  /** The common end of a run: open messages are finished, then one lifecycle event is published. */
  function Closed(task: Task, ending: Ending, status: Status): (Task, seq<Event>) {
    var (finished, events) := Called(task, FinishEvery);
    (finished.(stage := Ended(ending)), events + [Lifecycle(task.assistant, status)])
  }

  function End(t: Thread, k: nat, interrupts: seq<Interrupt>): Thread
    requires k < |t.tasks|
  {
    var task := t.tasks[k];
    if interrupts == [] then
      var (closed, events) := Closed(task, Finished, Completed);
      Publish(t, k, closed, events)
    else
      Publish(t.(pending := Some(Pending(task.assistant, PayloadsOf(interrupts)))), k,
              task.(stage := Ended(AwaitingInput(interrupts))),
              [Lifecycle(task.assistant, Interrupted)] + Requests(interrupts))
  }

  function Request(t: Thread, target: Option<RunId>): Thread {
    match t.active
    case Some(Occupied(k)) =>
      if k < |t.tasks| && !t.tasks[k].Done() && (target.None? || target.value == t.tasks[k].run)
      then t.(tasks := t.tasks[k := t.tasks[k].(cancelRequested := true)]) else t
    case _ => t
  }

  /** A step that is not enabled is not taken. */
  ghost function Next(t: Thread, step: Step): Thread {
    if !Enabled(t, step) then t
    else match step
      case StartRun(run, assistant, viaRouter, params) => Begin(t, run, Start(assistant, viaRouter, None, params))
      case Respond(run, id, assistantArg) => BeginResume(t, run, id, assistantArg)
      case RouterRespond(run, id, inSnapshot) =>
        if inSnapshot && Truthy(t.stored) then BeginResume(t, run, id, t.stored) else t
      case Resolved(run) => Dispatch(t, run)
      case MergeRaised(run) => Abandon(t, run)
      case ResolveFailed(run) => Release(t, run)
      case StartCancelled(run) => Abandon(t, run)
      case FirstStep(k) =>
        var task := t.tasks[k];
        if task.cancelRequested then Publish(t, k, task.(stage := NeverRan), [])
        else Publish(t, k, task.(stage := Streaming),
                     [Lifecycle(task.assistant, Started), Lifecycle(task.assistant, Running)])
      case StreamMessage(k, chunk) =>
        var (task, events) := Fed(t.tasks[k], chunk);
        Publish(t, k, task, events)
      case StreamValues(k, snapshot) =>
        var task := t.tasks[k];
        Publish(t, k, task.(lastValues := Some(snapshot), body := task.body + [Values(snapshot.fields)]),
                [Values(snapshot.fields)])
      case EndOfStream(k, fallback) => End(t, k, Outcome(t.tasks[k], fallback))
      case CancelDelivered(k) =>
        var (task, events) := Closed(t.tasks[k], Cancelled, Interrupted);
        Publish(t, k, task, events)
      case StreamRaised(k, error) =>
        var (task, events) := Closed(t.tasks[k], Errored(error), Failed(error));
        Publish(t, k, task, events)
      case DoneCallback(k) =>
        t.(callbacks := t.callbacks - {k}, active := if t.active == Some(Occupied(k)) then None else t.active)
      case Cancel(target) => Request(t, target)
  }

  ghost function After(t: Thread, steps: seq<Step>): Thread {
    if steps == [] then t else Next(After(t, steps[..|steps| - 1]), steps[|steps| - 1])
  }
}
