/** What every step of the run manager keeps, on one thread. */
module RunInvariants {
  import opened Options
  import Json
  import opened Translation
  import opened RunConfigs
  import opened Runs

  // ------------------------------------------------------- the slot in _active

  predicate AllDone(tasks: seq<Task>, n: nat) {
    n <= |tasks| && forall k :: 0 <= k < n ==> tasks[k].Done()
  }

  /** Starts that have reserved and not finished: still resolving, or abandoned. */
  function Reservations(t: Thread): set<RunId> { t.resolving.Keys + t.abandoned }

  /** `_active` holds the record of the one reservation or the one task there can be. */
  ghost predicate SlotInv(t: Thread) {
    && t.resolving.Keys !! t.abandoned
    && (forall k <- t.callbacks :: k < |t.tasks| && t.tasks[k].Done())
    && match t.active
       case None => Reservations(t) == {} && AllDone(t.tasks, |t.tasks|)
       case Some(Reserved(run)) => Reservations(t) == {run} && AllDone(t.tasks, |t.tasks|)
       case Some(Occupied(k)) =>
         && Reservations(t) == {} && k + 1 == |t.tasks| && AllDone(t.tasks, k)
         && (t.tasks[k].Done() ==> k in t.callbacks)
  }

  predicate Live(t: Thread, k: nat) { k < |t.tasks| && !t.tasks[k].Done() }

  lemma {:induction false} LiveIsLast(t: Thread, k: nat)
    requires SlotInv(t) && Live(t, k)
    ensures t.active == Some(Occupied(k)) && k + 1 == |t.tasks| && AllDone(t.tasks, k)
    ensures Reservations(t) == {} && t.resolving == map[] && k !in t.callbacks
  {
    assert t.resolving.Keys == {};
  }

  /** A live task taking a step, or ending. */
  lemma {:induction false} PublishSlot(t: Thread, k: nat, task': Task, events: seq<Event>)
    requires SlotInv(t) && Live(t, k)
    ensures SlotInv(Publish(t, k, task', events))
  {
    LiveIsLast(t, k);
    var t' := Publish(t, k, task', events);
    assert forall j :: 0 <= j < k ==> t'.tasks[j] == t.tasks[j];
  }

  lemma {:induction false} BeginSlot(t: Thread, run: RunId, start: Start)
    requires SlotInv(t)
    ensures SlotInv(Begin(t, run, start))
  {
    if !Busy(t) {
      assert Reservations(t) == {} && t.resolving == map[];
      assert Reservations(Begin(t, run, start)) == {run};
    }
  }

  lemma {:induction false} DispatchSlot(t: Thread, run: RunId)
    requires SlotInv(t) && run in t.resolving
    ensures SlotInv(Dispatch(t, run))
  {
    OnlyReservation(t, run);
    var t' := Dispatch(t, run);
    assert forall j :: 0 <= j < |t.tasks| ==> t'.tasks[j] == t.tasks[j];
    assert Reservations(t') == {};
  }

  /** A suspended start holds the slot, alone. */
  lemma {:induction false} OnlyReservation(t: Thread, run: RunId)
    requires SlotInv(t) && run in t.resolving
    ensures t.active == Some(Reserved(run)) && t.resolving.Keys == {run} && t.abandoned == {}
    ensures AllDone(t.tasks, |t.tasks|)
  {
    assert run in Reservations(t);
    forall r | r in t.resolving.Keys + t.abandoned ensures r == run {
      assert r in Reservations(t);
    }
    assert run !in t.abandoned;
  }

  lemma {:induction false} ReleaseSlot(t: Thread, run: RunId)
    requires SlotInv(t) && run in t.resolving
    ensures SlotInv(Release(t, run))
  {
    OnlyReservation(t, run);
    assert Reservations(Release(t, run)) == {};
  }

  lemma {:induction false} AbandonSlot(t: Thread, run: RunId)
    requires SlotInv(t) && run in t.resolving
    ensures SlotInv(Abandon(t, run))
  {
    OnlyReservation(t, run);
    assert Reservations(Abandon(t, run)) == {run};
  }

  lemma {:induction false} CallbackSlot(t: Thread, k: nat)
    requires SlotInv(t) && k in t.callbacks
    ensures SlotInv(Next(t, DoneCallback(k)))
  {
  }

  lemma {:induction false} CancelSlot(t: Thread, target: Option<RunId>)
    requires SlotInv(t)
    ensures SlotInv(Request(t, target))
  {
    var t' := Request(t, target);
    assert |t'.tasks| == |t.tasks|;
    assert forall j :: 0 <= j < |t.tasks| ==> t'.tasks[j].stage == t.tasks[j].stage;
  }

  lemma {:induction false} NextSlot(t: Thread, step: Step)
    requires SlotInv(t)
    ensures SlotInv(Next(t, step))
  {
    if Enabled(t, step) {
      match step
      case StartRun(run, assistant, viaRouter, params) => BeginSlot(t, run, Start(assistant, viaRouter, None, params));
      case Respond(run, id, arg) => ResumeSlot(t, run, id, arg);
      case RouterRespond(run, id, inSnapshot) => ResumeSlot(t, run, id, t.stored);
      case Resolved(run) => DispatchSlot(t, run);
      case ResolveFailed(run) => ReleaseSlot(t, run);
      case StartCancelled(run) => AbandonSlot(t, run);
      case MergeRaised(run) => AbandonSlot(t, run);
      case DoneCallback(k) => CallbackSlot(t, k);
      case Cancel(target) => CancelSlot(t, target);
      case _ => TaskStepSlot(t, step);
    }
  }

  lemma {:induction false} ResumeSlot(t: Thread, run: RunId, id: string, arg: Option<string>)
    requires SlotInv(t)
    ensures SlotInv(BeginResume(t, run, id, arg))
  {
    if ResumeWith(t, id, arg).Some? {
      BeginSlot(t, run, Start(ResumeWith(t, id, arg).value, false, if t.pending.Some? then Some(|t.tasks|) else None, NO_PARAMS));
    }
  }

  /** Steps of a run's own task. */
  predicate TaskStep(step: Step) {
    step.FirstStep? || step.StreamMessage? || step.StreamValues? || step.EndOfStream?
    || step.CancelDelivered? || step.StreamRaised?
  }

  /** What a task step makes of its task, what it publishes, and the interrupts it registers. */
  datatype Effect = Effect(task: Task, events: seq<Event>, registered: seq<Interrupt>)

  function EffectOf(t: Thread, step: Step): Effect
    requires TaskStep(step) && step.k < |t.tasks|
  {
    EffectOn(t.tasks[step.k], step)
  }

  function EffectOn(task: Task, step: Step): Effect
    requires TaskStep(step)
  {
    match step
    case FirstStep(_) =>
      if task.cancelRequested then Effect(task.(stage := NeverRan), [], [])
      else Effect(task.(stage := Streaming), [Lifecycle(task.assistant, Started), Lifecycle(task.assistant, Running)], [])
    case StreamMessage(_, chunk) => Effect(Fed(task, chunk).0, Fed(task, chunk).1, [])
    case StreamValues(_, s) =>
      Effect(task.(lastValues := Some(s), body := task.body + [Values(s.fields)]), [Values(s.fields)], [])
    case CancelDelivered(_) =>
      Effect(Closed(task, Cancelled, Interrupted).0, Closed(task, Cancelled, Interrupted).1, [])
    case StreamRaised(_, error) =>
      Effect(Closed(task, Errored(error), Failed(error)).0, Closed(task, Errored(error), Failed(error)).1, [])
    case EndOfStream(_, fallback) =>
      var interrupts := Outcome(task, fallback);
      if interrupts == [] then Effect(Closed(task, Finished, Completed).0, Closed(task, Finished, Completed).1, [])
      else Effect(task.(stage := Ended(AwaitingInput(interrupts))),
                  [Lifecycle(task.assistant, Interrupted)] + Requests(interrupts), interrupts)
  }

  /** The thread after a task step, in terms of its effect. */
  lemma {:induction false} TaskStepIsEffect(t: Thread, step: Step)
    requires TaskStep(step) && Enabled(t, step)
    ensures step.k < |t.tasks|
    ensures var e := EffectOf(t, step);
      Next(t, step) == Publish(if e.registered == [] then t
                               else t.(pending := Some(Pending(t.tasks[step.k].assistant, PayloadsOf(e.registered)))),
                               step.k, e.task, e.events)
  {
  }

  lemma {:induction false} TaskStepSlot(t: Thread, step: Step)
    requires SlotInv(t) && TaskStep(step) && Enabled(t, step)
    ensures SlotInv(Next(t, step))
  {
    TaskStepIsEffect(t, step);
    var e := EffectOf(t, step);
    var t1 := if e.registered == [] then t
              else t.(pending := Some(Pending(t.tasks[step.k].assistant, PayloadsOf(e.registered))));
    assert SlotInv(t1);
    PublishSlot(t1, step.k, e.task, e.events);
  }

  // --------------------------------------------------------- the hub's log

  function Closing(assistant: string, ending: Ending): seq<Event> {
    match ending
    case Finished => [Lifecycle(assistant, Completed)]
    case Errored(error) => [Lifecycle(assistant, Failed(error))]
    case Cancelled => [Lifecycle(assistant, Interrupted)]
    case AwaitingInput(interrupts) => [Lifecycle(assistant, Interrupted)] + Requests(interrupts)
  }

  /**
   The block a run contributes to its thread's log: two opening events, what
   the stream produced, one terminal event, and one request per interrupt if
   the graph interrupted. A run cancelled before its first step contributes nothing.
   */
  function BlockOf(task: Task): seq<Event> {
    match task.stage
    case Created => []
    case NeverRan => []
    case Streaming => [Lifecycle(task.assistant, Started), Lifecycle(task.assistant, Running)] + task.body
    case Ended(ending) =>
      [Lifecycle(task.assistant, Started), Lifecycle(task.assistant, Running)] + task.body
      + Closing(task.assistant, ending)
  }

  function Blocks(tasks: seq<Task>): seq<Event> {
    if tasks == [] then [] else Blocks(tasks[..|tasks| - 1]) + BlockOf(tasks[|tasks| - 1])
  }

  // ------------------------------------------------------ one task's stream

  predicate StreamEvent(e: Event) { e.Message? || e.Values? }

  function FramesIn(es: seq<Event>): seq<Frame> {
    if es == [] then []
    else FramesIn(es[..|es| - 1]) + if es[|es| - 1].Message? then [es[|es| - 1].frame] else []
  }

  /** All that the recorded calls make a new translator say. */
  function Said(task: Task): Output {
    ApplyAll(Translator(task.translator.loads, []), task.calls)
  }

  /** The body is what the translator said to the recorded calls, with values in between. */
  ghost predicate TaskInv(task: Task) {
    && (task.stage.Created? ==> task.body == [] && task.calls == [])
    && (forall i :: 0 <= i < |task.body| ==> StreamEvent(task.body[i]))
    && Output(task.translator, FramesIn(task.body)) == Said(task)
    && (task.stage.Ended? && !task.stage.ending.AwaitingInput? ==>
          task.calls != [] && task.calls[|task.calls| - 1].FinishEvery?)
    && (task.stage.Ended? && task.stage.ending.AwaitingInput? ==> task.stage.ending.interrupts != [])
  }

  lemma {:induction false} FramesInConcat(es: seq<Event>, frames: seq<Frame>)
    ensures FramesIn(es + Messages(frames)) == FramesIn(es) + frames
    decreases |frames|
  {
    if frames == [] {
      assert es + Messages(frames) == es;
    } else {
      var init, last := frames[..|frames| - 1], frames[|frames| - 1];
      FramesInConcat(es, init);
      assert (es + Messages(frames))[..|es| + |init|] == es + Messages(init);
    }
  }

  lemma {:induction false} CalledInv(task: Task, call: Call)
    requires TaskInv(task) && task.stage.Streaming?
    ensures TaskInv(Called(task, call).0) && Called(task, call).0.stage.Streaming?
    ensures Called(task, call).0.body == task.body + Called(task, call).1
  {
    var out := Apply(task.translator, call);
    assert (task.calls + [call])[..|task.calls|] == task.calls;
    FramesInConcat(task.body, out.frames);
  }

  lemma {:induction false} FedInv(task: Task, c: Chunk)
    requires TaskInv(task) && task.stage.Streaming?
    ensures TaskInv(Fed(task, c).0) && Fed(task, c).0.stage.Streaming?
    ensures Fed(task, c).0.body == task.body + Fed(task, c).1
  {
    CalledInv(task, Feed(c));
    var (fed, events) := Called(task, Feed(c));
    if c.usage.Some? {
      CalledInv(fed, FinishMessage(c));
      EventsAssociate(task.body, events, Called(fed, FinishMessage(c)).1);
    }
  }

  lemma {:induction false} ClosedInv(task: Task, ending: Ending, status: Status)
    requires TaskInv(task) && task.stage.Streaming? && !ending.AwaitingInput?
    requires Closing(task.assistant, ending) == [Lifecycle(task.assistant, status)]
    ensures TaskInv(Closed(task, ending, status).0)
    ensures BlockOf(Closed(task, ending, status).0) == BlockOf(task) + Closed(task, ending, status).1
  {
    CalledInv(task, FinishEvery);
    var frames := Called(task, FinishEvery).1;
    var opening := [Lifecycle(task.assistant, Started), Lifecycle(task.assistant, Running)];
    assert opening + (task.body + frames) + [Lifecycle(task.assistant, status)]
        == opening + task.body + (frames + [Lifecycle(task.assistant, status)]);
  }

  /** A task step keeps the task's account and adds its events to the task's block. */
  lemma {:induction false} EffectInv(t: Thread, step: Step)
    requires TaskStep(step) && Enabled(t, step) && TaskInv(t.tasks[step.k])
    ensures TaskInv(EffectOf(t, step).task)
    ensures BlockOf(EffectOf(t, step).task) == BlockOf(t.tasks[step.k]) + EffectOf(t, step).events
    ensures EffectOf(t, step).task.run == t.tasks[step.k].run
    ensures EffectOf(t, step).task.assistant == t.tasks[step.k].assistant
    ensures EffectOf(t, step).task.found == t.tasks[step.k].found
  {
    var task := t.tasks[step.k];
    match step
    case FirstStep(_) =>
    case StreamMessage(_, chunk) =>
      FedInv(task, chunk);
      Grows(task, Fed(task, chunk).0, Fed(task, chunk).1);
    case StreamValues(_, s) =>
      ValuesInv(task, s);
      Grows(task, EffectOf(t, step).task, [Values(s.fields)]);
    case CancelDelivered(_) => ClosedInv(task, Cancelled, Interrupted);
    case StreamRaised(_, error) => ClosedInv(task, Errored(error), Failed(error));
    case EndOfStream(_, fallback) =>
      if Outcome(task, fallback) == [] { ClosedInv(task, Finished, Completed); }
  }

  lemma {:induction false} Grows(task: Task, task': Task, events: seq<Event>)
    requires task.stage.Streaming? && task'.stage.Streaming? && task'.assistant == task.assistant
    requires task'.body == task.body + events
    ensures BlockOf(task') == BlockOf(task) + events
  {
    var opening := [Lifecycle(task.assistant, Started), Lifecycle(task.assistant, Running)];
    assert opening + (task.body + events) == opening + task.body + events;
  }

  lemma {:induction false} ValuesInv(task: Task, s: Snapshot)
    requires TaskInv(task) && task.stage.Streaming?
    ensures TaskInv(task.(lastValues := Some(s), body := task.body + [Values(s.fields)]))
  {
    assert (task.body + [Values(s.fields)])[..|task.body|] == task.body;
  }

  // ------------------------------------------------------------ the whole thread

  /** The pending map a thread should have: the interrupts its last run ended with, if it did. */
  function PendingAfter(tasks: seq<Task>): Option<Pending> {
    if tasks == [] then None
    else
      var last := tasks[|tasks| - 1];
      if last.stage.Ended? && last.stage.ending.AwaitingInput?
      then Some(Pending(last.assistant, PayloadsOf(last.stage.ending.interrupts))) else None
  }

  function LastAssistant(tasks: seq<Task>): Option<string> {
    if tasks == [] then None else Some(tasks[|tasks| - 1].assistant)
  }

  ghost predicate TasksInv(t: Thread) {
    forall k :: 0 <= k < |t.tasks| ==> TaskInv(t.tasks[k])
  }

  /** The run before position `k` ended by asking for input. */
  predicate Asked(tasks: seq<Task>, k: nat) {
    0 < k <= |tasks| && tasks[k - 1].stage.Ended? && tasks[k - 1].stage.ending.AwaitingInput?
  }

  /** A run resumed from a pending map directly follows the run that registered it. */
  ghost predicate FoundInv(t: Thread) {
    && (forall k :: 0 <= k < |t.tasks| && t.tasks[k].found.Some? ==>
          t.tasks[k].found.value == k && Asked(t.tasks, k))
    && (forall run :: run in t.resolving && t.resolving[run].found.Some? ==>
          t.resolving[run].found.value == |t.tasks| && Asked(t.tasks, |t.tasks|))
  }

  ghost predicate RunIdsInv(t: Thread) {
    && t.resolving.Keys <= t.used
    && (forall k :: 0 <= k < |t.tasks| ==> t.tasks[k].run in t.used && t.tasks[k].run !in t.resolving)
    && (forall j, k :: 0 <= j < k < |t.tasks| ==> t.tasks[j].run != t.tasks[k].run)
  }

  ghost predicate Inv(t: Thread) {
    && SlotInv(t) && BooksInv(t)
    && t.log == Blocks(t.tasks)
    && t.pending == PendingAfter(t.tasks)
  }

  lemma {:induction false} BlocksReplaced(tasks: seq<Task>, task': Task, events: seq<Event>)
    requires tasks != [] && BlockOf(task') == BlockOf(tasks[|tasks| - 1]) + events
    ensures Blocks(tasks[|tasks| - 1 := task']) == Blocks(tasks) + events
  {
    var k := |tasks| - 1;
    assert tasks[k := task'][..k] == tasks[..k];
    EventsAssociate(Blocks(tasks[..k]), BlockOf(tasks[k]), events);
  }

  lemma {:induction false} BlocksSnoc(tasks: seq<Task>, task: Task)
    ensures Blocks(tasks + [task]) == Blocks(tasks) + BlockOf(task)
  {
    assert (tasks + [task])[..|tasks|] == tasks;
  }

  /** A step that leaves the tasks, the log and the pending map alone. */
  ghost predicate SameRuns(t: Thread, t': Thread) {
    t'.tasks == t.tasks && t'.log == t.log && t'.pending == t.pending && t'.lastAssistant == t.lastAssistant
  }

  /** A task that keeps its identity keeps the thread's books in order. */
  predicate SameIdentity(task: Task, task': Task) {
    task'.run == task.run && task'.found == task.found && task'.assistant == task.assistant
  }

  ghost predicate BooksInv(t: Thread) {
    TasksInv(t) && FoundInv(t) && RunIdsInv(t) && t.lastAssistant == LastAssistant(t.tasks)
  }

  lemma {:induction false} ReplacedTasks(t: Thread, k: nat, task': Task)
    requires TasksInv(t) && k < |t.tasks| && TaskInv(task')
    ensures TasksInv(t.(tasks := t.tasks[k := task']))
  {
  }

  lemma {:induction false} ReplacedFound(t: Thread, k: nat, task': Task)
    requires FoundInv(t) && k + 1 == |t.tasks| && SameIdentity(t.tasks[k], task') && t.resolving == map[]
    ensures FoundInv(t.(tasks := t.tasks[k := task']))
  {
    var tasks' := t.tasks[k := task'];
    forall i | 0 <= i < |tasks'| && tasks'[i].found.Some?
      ensures tasks'[i].found.value == i && Asked(tasks', i)
    {
      assert t.tasks[i].found == tasks'[i].found;
      assert Asked(t.tasks, i);
    }
  }

  lemma {:induction false} ReplacedRunIds(t: Thread, k: nat, task': Task)
    requires RunIdsInv(t) && k < |t.tasks| && SameIdentity(t.tasks[k], task')
    ensures RunIdsInv(t.(tasks := t.tasks[k := task']))
  {
    var tasks' := t.tasks[k := task'];
    assert forall i :: 0 <= i < |tasks'| ==> tasks'[i].run == t.tasks[i].run;
  }

  lemma {:induction false} ReplacedBooks(t: Thread, k: nat, task': Task)
    requires BooksInv(t) && k + 1 == |t.tasks| && TaskInv(task') && SameIdentity(t.tasks[k], task')
    requires t.resolving == map[]
    ensures BooksInv(t.(tasks := t.tasks[k := task']))
  {
    ReplacedTasks(t, k, task');
    ReplacedFound(t, k, task');
    ReplacedRunIds(t, k, task');
  }

  lemma {:induction false} TaskStepInv(t: Thread, step: Step)
    requires Inv(t) && TaskStep(step) && Enabled(t, step)
    ensures Inv(Next(t, step))
  {
    TaskStepSlot(t, step);
    LiveIsLast(t, step.k);
    TaskStepBooks(t, step);
    TaskStepLog(t, step);
    EffectPending(t, step);
  }

  lemma {:induction false} TaskStepBooks(t: Thread, step: Step)
    requires BooksInv(t) && TaskStep(step) && Enabled(t, step)
    requires step.k + 1 == |t.tasks| && t.resolving == map[]
    ensures BooksInv(Next(t, step))
  {
    TaskStepIsEffect(t, step);
    EffectInv(t, step);
    ReplacedBooks(t, step.k, EffectOf(t, step).task);
  }

  lemma {:induction false} TaskStepLog(t: Thread, step: Step)
    requires TasksInv(t) && TaskStep(step) && Enabled(t, step) && step.k + 1 == |t.tasks|
    requires t.log == Blocks(t.tasks)
    ensures Next(t, step).log == Blocks(Next(t, step).tasks)
    ensures Next(t, step).tasks == t.tasks[step.k := EffectOf(t, step).task]
  {
    TaskStepIsEffect(t, step);
    EffectInv(t, step);
    BlocksReplaced(t.tasks, EffectOf(t, step).task, EffectOf(t, step).events);
  }

  lemma {:induction false} EffectPending(t: Thread, step: Step)
    requires TaskStep(step) && Enabled(t, step) && step.k + 1 == |t.tasks|
    requires t.pending == PendingAfter(t.tasks)
    ensures Next(t, step).pending == PendingAfter(t.tasks[step.k := EffectOf(t, step).task])
  {
    FedStage(t.tasks[step.k], step);
  }

  lemma {:induction false} FedStage(task: Task, step: Step)
    ensures step.StreamMessage? ==> Fed(task, step.chunk).0.stage == task.stage
  {
  }

  lemma {:induction false} DispatchFound(t: Thread, run: RunId)
    requires FoundInv(t) && run in t.resolving && t.resolving.Keys == {run}
    ensures FoundInv(Dispatch(t, run))
  {
    var t' := Dispatch(t, run);
    assert t'.resolving == map[];
    forall i | 0 <= i < |t'.tasks| && t'.tasks[i].found.Some?
      ensures t'.tasks[i].found.value == i && Asked(t'.tasks, i)
    {
      assert Asked(t.tasks, i);
    }
  }

  lemma {:induction false} DispatchRunIds(t: Thread, run: RunId)
    requires RunIdsInv(t) && run in t.resolving
    ensures RunIdsInv(Dispatch(t, run))
  {
  }

  lemma {:induction false} DispatchTasks(t: Thread, run: RunId)
    requires TasksInv(t) && run in t.resolving
    ensures TasksInv(Dispatch(t, run))
  {
    var start := t.resolving[run];
    assert TaskInv(NewTask(t.loads, run, start.assistant, start.found));
  }

  lemma {:induction false} DispatchBooks(t: Thread, run: RunId)
    requires BooksInv(t) && run in t.resolving && t.resolving.Keys == {run}
    ensures BooksInv(Dispatch(t, run))
  {
    DispatchTasks(t, run);
    DispatchFound(t, run);
    DispatchRunIds(t, run);
  }

  lemma {:induction false} DispatchInv(t: Thread, run: RunId)
    requires Inv(t) && run in t.resolving
    ensures Inv(Dispatch(t, run))
  {
    DispatchSlot(t, run);
    OnlyReservation(t, run);
    DispatchBooks(t, run);
    var start := t.resolving[run];
    BlocksSnoc(t.tasks, NewTask(t.loads, run, start.assistant, start.found));
    assert Blocks(t.tasks) + [] == Blocks(t.tasks);
  }

  lemma {:induction false} BeginInv(t: Thread, run: RunId, start: Start)
    requires Inv(t) && run !in t.used
    requires start.found.Some? ==> start.found.value == |t.tasks| && Asked(t.tasks, |t.tasks|)
    ensures Inv(Begin(t, run, start))
  {
    BeginSlot(t, run, start);
  }

  lemma {:induction false} ResumeInv(t: Thread, run: RunId, id: string, arg: Option<string>)
    requires Inv(t) && run !in t.used
    ensures Inv(BeginResume(t, run, id, arg))
  {
    if ResumeWith(t, id, arg).Some? {
      BeginInv(t, run, Start(ResumeWith(t, id, arg).value, false, if t.pending.Some? then Some(|t.tasks|) else None, NO_PARAMS));
    }
  }

  lemma {:induction false} RequestInv(t: Thread, target: Option<RunId>)
    requires Inv(t)
    ensures Inv(Request(t, target))
  {
    CancelSlot(t, target);
    if t.active.Some? && t.active.value.Occupied? && Live(t, t.active.value.position) {
      LiveIsLast(t, t.active.value.position);
      MarkedInv(t, t.active.value.position);
    }
  }

  lemma {:induction false} MarkedInv(t: Thread, k: nat)
    requires BooksInv(t) && k + 1 == |t.tasks| && t.resolving == map[]
    ensures var t' := t.(tasks := t.tasks[k := t.tasks[k].(cancelRequested := true)]);
      BooksInv(t') && Blocks(t'.tasks) == Blocks(t.tasks) && PendingAfter(t'.tasks) == PendingAfter(t.tasks)
  {
    var task' := t.tasks[k].(cancelRequested := true);
    assert TaskInv(t.tasks[k]) && TaskInv(task');
    ReplacedBooks(t, k, task');
    assert BlockOf(task') == BlockOf(t.tasks[k]) + [];
    BlocksReplaced(t.tasks, task', []);
    assert Blocks(t.tasks) + [] == Blocks(t.tasks);
  }

  lemma {:induction false} LeavingInv(t: Thread, step: Step)
    requires Inv(t) && Enabled(t, step)
    requires step.ResolveFailed? || step.StartCancelled? || step.MergeRaised? || step.DoneCallback?
    ensures Inv(Next(t, step))
  {
    NextSlot(t, step);
  }

  /** Every step of every call, task, callback and client keeps the invariant. */
  lemma {:induction false} NextInv(t: Thread, step: Step)
    requires Inv(t)
    ensures Inv(Next(t, step))
  {
    if Enabled(t, step) {
      match step
      case StartRun(run, assistant, viaRouter, params) => BeginInv(t, run, Start(assistant, viaRouter, None, params));
      case Respond(run, id, arg) => ResumeInv(t, run, id, arg);
      case RouterRespond(run, id, inSnapshot) => ResumeInv(t, run, id, t.stored);
      case Resolved(run) => DispatchInv(t, run);
      case ResolveFailed(run) => LeavingInv(t, step);
      case StartCancelled(run) => LeavingInv(t, step);
      case MergeRaised(run) => LeavingInv(t, step);
      case DoneCallback(k) => LeavingInv(t, step);
      case Cancel(target) => RequestInv(t, target);
      case _ => TaskStepInv(t, step);
    }
  }

  lemma {:induction false} Reachable(t: Thread, steps: seq<Step>)
    requires Inv(t)
    ensures Inv(After(t, steps))
  {
    if steps != [] {
      Reachable(t, steps[..|steps| - 1]);
      NextInv(After(t, steps[..|steps| - 1]), steps[|steps| - 1]);
    }
  }

  lemma {:induction false} NewThreadInv(loads: Json.Loads, stored: Option<string>)
    ensures Inv(NewThread(loads, stored))
  {
  }
}
